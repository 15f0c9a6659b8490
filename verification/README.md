# django_utz, modelled in Dafny

django_utz shows the datetimes of Django models and DRF serializers in the
timezone of "the user" an object belongs to. The repository has three generations
of the same idea:

- the mixins of `django_utz_mixins/`;
- the mixins of `django_utz/models/` and `django_utz/serializers/`;
- the decorators of `django_utz/decorators/`, in a function style and a class-based style.

Behind the Django glue there is a small rule layer, and that layer is what this
project models:

- **Finding the user.** A model reaches the user model by following its first
  relational field at each level (`find_user_field`,
  `find_user_related_model_field`), or by a single-level scan in the earlier
  generation. `get_user` picks the instance itself, a configured or discovered
  related user, or the request user. `get_attr_by_traversal` follows a dotted
  path with a default.
- **The configuration store on `UTZMeta`.** The getter and setter made by
  `make_utz_config_getter` and `make_utz_config_setter`, and the validator
  registrar. Validators run only on values that are not None, and the setter
  admits only the allowed names plus `_decorated`.
- **Preparing models and serializers.**
  - The required-config checks, in which a falsy value counts as missing.
  - `"__all__"` expanded to the model's DateTimeFields.
  - The suffix default `"utz"`.
  - The attributes `{field}_{suffix}` and the functions `get_{field}_{suffix}`.
  - The idempotent append of `validate_timezone`.
  - Adding `UTZDateTimeField`s to serializers, with the `format` keyword defaulted.
- **The three `user_timezone_changed` signal handlers.**
- **The middleware's request-user slot.**
- **`utzdatetime`.**

The framework is replaced by plain data:

- a model class is a record of its fields (name, kind, related model), bases,
  ancestors, `UTZMeta` configs and class attributes;
- a schema maps qualified class names to classes;
- instances are a heap of attribute maps;
- exceptions are an `Error` datatype;
- timezone validity is a predicate over two abstract sets of zone names, one for
  `pytz` and one for `zoneinfo`.

A class that the source mutates in place is modelled as a returned descriptor
(`Outcome`, `SerializerOutcome`). Where the source keeps an object whose fields
change, the model has a Dafny `class`:

- the validator registry;
- the decorator objects;
- the serializer mixins;
- the save-signal pair;
- the thread-local slot;
- `utzdatetime`.

Each imperative method is proved equal to a specification function, and the
source's promises are lemmas about those functions.

Files:

| file | module | what it holds |
|---|---|---|
| `common.dfy` | `Common` | Python values, truthiness, iteration, `in`, `set()` |
| `schema.dfy` | `Schema` | model classes, `_meta` lookups, `UTZMeta` reads, the validator append |
| `strings.dfy` | `Strings` | `split`, `split(maxsplit=1)`, `join`, `removeprefix` |
| `timezone.dfy` | `Timezone` | `is_timezone_valid`, `validate_timezone` |
| `traversal.dfy` | `Traversal` | `get_attr_by_traversal` |
| `project_user.dfy` | `ProjectUser` | `get_project_user_model`, `is_user_model` |
| `relation_paths.dfy` | `RelationPaths` | the recursive user-path search and a corrected one |
| `user_lookup.dfy` | `UserLookup` | `FunctionAttribute`, `find_user_field`, `get_user` |
| `generated_attrs.dfy` | `GeneratedAttrs` | the `setattr` loops that install `{field}_{suffix}` |
| `model_mixins.dfy` | `ModelMixins` | django_utz/models/mixins.py |
| `utz_mixins.dfy` | `UtzMixins` | django_utz_mixins/mixins.py |
| `config_store.dfy` | `ConfigStore` | django_utz/base.py |
| `model_preparation.dfy` | `ModelPreparation` | the checks and preparation shared by the model decorators |
| `model_decorators.dfy` | `ModelDecorators` | the class-based model decorators |
| `model_decorator_functions.dfy` | `ModelDecoratorFunctions` | the function-style model decorators |
| `field_adding.dfy` | `FieldAdding` | the serializer decorators' field-adding loop |
| `serializer_decorator_functions.dfy` | `SerializerDecoratorFunctions` | django_utz/decorators/serializers.py |
| `serializer_decorators.dfy` | `SerializerDecorators` | django_utz/decorators/serializers/decorators.py |
| `serializer_mixins.dfy` | `SerializerMixins` | django_utz/serializers/mixins.py |
| `utz_serializer_mixins.dfy` | `UtzSerializerMixins` | django_utz_mixins/serializers.py |
| `signals.dfy` | `Signals` | django_utz/signals.py |
| `model_signals.dfy` | `ModelSignals` | django_utz/models/signals.py |
| `mixin_signals.dfy` | `MixinSignals` | django_utz_mixins/signals.py |
| `middleware.dfy` | `Middleware` | django_utz/middleware.py |
| `utz_datetime.dfy` | `UtzDateTime` | `utzdatetime` and the per-field getter |

## Model

| member | source | states |
|---|---|---|
| Strings.Split | django_utz/decorators/utils.py:83 | `str.split` on one separator yields at least one part |
| Strings.SplitOnce | django_utz/decorators/models/utils.py:19 | `split(sep, maxsplit=1)`: one part exactly when the separator is absent; otherwise two parts, cut at the first separator, which put back together give the string |
| Strings.RemovePrefix | django_utz/base.py:89 | `removeprefix`: when the prefix is present, prefix + result is the input; otherwise the input is returned unchanged |
| Strings.SplitOfFree | django_utz/decorators/utils.py:82-86 | a segment without dots splits to itself alone |
| Strings.SplitAfterFree | django_utz/decorators/utils.py:82-86 | a dot-free piece followed by a dot splits off as the first part |
| Strings.SplitJoin | django_utz/decorators/utils.py:82-86 | splitting the dot-join of dot-free parts gives the parts back |
| Strings.JoinSplit | django_utz/decorators/utils.py:82-86 | every part of a split is dot-free, and joining the parts restores the string |
| Timezone.ValidateTimezone | django_utz/decorators/utils.py:16-26 | returns its argument exactly when it is valid, and raises ValidationError otherwise (also django_utz/utils.py:13-23) |
| Timezone.ValidityIsEitherDatabase | django_utz/decorators/utils.py:29-50 | a name is valid iff pytz or zoneinfo accepts it; every tzinfo object is valid, even with both databases empty |
| Timezone.ValidityIsMonotone | django_utz/utils.py:26-47 | giving either database more names never makes a valid value invalid |
| Traversal.GetAttr | django_utz/decorators/utils.py:82-88 | in the model, where only instances carry attributes, `getattr` succeeds exactly on an instance that has the attribute, and returns that attribute |
| Traversal.GetAttrByTraversal | django_utz/decorators/utils.py:53-88 | the loop that reassigns `obj` returns the value reached by following the dot-separated segments in order, or the default when some step is missing (same code in django_utz/utils.py:50-85) |
| Traversal.FollowAppend | django_utz/decorators/utils.py:84-86 | following a concatenated path is following the first part, then the second |
| Traversal.TraverseThroughNone | django_utz/decorators/utils.py:87-88 | a step through None gives the default, not an exception; in the model the same holds for every other value that is not an instance |
| Traversal.SingleSegmentIsGetAttr | django_utz/decorators/utils.py:82-86 | a path without dots is a plain attribute lookup with a default |
| Traversal.TraverseJoined | django_utz/utils.py:79-85 | traversing the dot-join of dot-free names follows exactly those names |
| ProjectUser.ProjectUserModelPath | django_utz/decorators/models/utils.py:16-22 | AUTH_USER_MODEL is cut at its first dot and "models" is inserted as the second segment |
| ProjectUser.AppUserPath | django_utz/decorators/models/utils.py:16-22 | "app.User" becomes "app.models.User" |
| ProjectUser.IsUserModelExactly | django_utz/decorators/models/utils.py:25-27 | with AUTH_USER_MODEL "<app>.<Name>", a class is the user model iff its qualified name is "<app>.models.<Name>" |
| RelationPaths.DecoratorPolicy | django_utz/decorators/models/utils.py:110-112 | `find_user_field` counts only ForeignKey and OneToOne fields as relations, and recognises the user model by `is_user_model` |
| RelationPaths.MixinPolicy | django_utz/models/mixins.py:239-249 | `find_user_related_model_field` counts any related field as a relation, and recognises the user model by a subclass test against the auth user classes |
| RelationPaths.FirstRelational | django_utz/decorators/models/utils.py:110-113 | the position of the first relational field, with no relational field before it |
| RelationPaths.Step | django_utz/decorators/models/utils.py:110-116 | the field that each level commits to is a relational concrete field of that model |
| RelationPaths.Discover | django_utz/decorators/models/utils.py:96-123 | the search as written raises only IndexError or RecursionError |
| RelationPaths.ScanFields | django_utz/decorators/models/utils.py:110-111 | the `for` loop over `_meta.fields` stops at the first relational field, and runs to the end when there is none |
| RelationPaths.DiscoverOneFrame | django_utz/decorators/models/utils.py:110-121 | one stack frame: return the path at the user model, recurse into the related model, or pop and return None |
| RelationPaths.SearchFrame | django_utz/decorators/models/utils.py:106-121 | the body of the nested function on the shared `field_paths` list either returns what the search returns or recurses one level deeper with the list extended |
| RelationPaths.FindPath | django_utz/decorators/models/utils.py:96-123 | the imperative search, with its shared list and its stack frames, equals the recursive specification |
| RelationPaths.FoundLeadsToUser | django_utz/decorators/models/utils.py:112-116 | a path that is found is the shared list extended by a chain of first relational fields ending at the user model |
| RelationPaths.LeadsToUserIsFound | django_utz/decorators/models/utils.py:110-116 | conversely, given enough stack, such a chain is exactly what is found |
| RelationPaths.NestedNeverIndexError | django_utz/decorators/models/utils.py:119-121 | once the shared list is non-empty, the `pop` never fails |
| RelationPaths.RootIndexError | django_utz/decorators/models/utils.py:103-121 | the search raises IndexError exactly when the starting model has no relational field |
| RelationPaths.Next | django_utz/decorators/models/utils.py:115-119 | the model the search moves on to is a model of the schema |
| RelationPaths.TrapRaisesRecursionError | django_utz/decorators/models/utils.py:119 | started inside a cycle of relations that never reaches the user model, the search raises RecursionError however deep the stack is |
| RelationPaths.SelfReferenceRaisesRecursionError | django_utz/decorators/models/utils.py:119 | a model whose only relation is a ForeignKey to itself raises RecursionError |
| RelationPaths.LaterUserRelationIsMissed | django_utz/decorators/models/utils.py:110-119 | a book whose first ForeignKey goes to a publisher and whose second goes to the user is not connected to the user |
| RelationPaths.FindUserFieldCorrected | django_utz/decorators/models/utils.py:96-123 | the corrected search returns only chains that lead to the user model |
| RelationPaths.ChainModels | django_utz/decorators/models/utils.py:112-116 | the models a chain passes through, starting with the model itself |
| RelationPaths.ChainSuffix | django_utz/decorators/models/utils.py:112-116 | every suffix of a chain to the user model is itself such a chain |
| RelationPaths.ChainUnique | django_utz/decorators/models/utils.py:110-116 | from a given model there is at most one chain to the user model |
| RelationPaths.ChainDistinct | django_utz/decorators/models/utils.py:110-116 | a chain to the user model never visits the same model twice |
| RelationPaths.CorrectedFindsChain | django_utz/decorators/models/utils.py:110-121 | the corrected search finds a chain whose models it has not yet visited |
| RelationPaths.CorrectedIsComplete | django_utz/decorators/models/utils.py:110-121 | whatever chain to the user model exists, the corrected search returns it |
| RelationPaths.CorrectedAgreesOnFound | django_utz/decorators/models/utils.py:96-123 | wherever the search as written finds a path, the corrected search finds the same path |
| RelationPaths.CorrectedRootWithoutRelation | django_utz/decorators/models/utils.py:103-121 | where the search as written raises IndexError, the corrected search returns None |
| RelationPaths.CorrectedTrapIsNone | django_utz/decorators/models/utils.py:119 | where the search as written recurses without bound, the corrected search returns None |
| UserLookup.NewFunctionAttribute | django_utz/decorators/models/utils.py:36-40 | `FunctionAttribute(func)` accepts callables only, and raises TypeError otherwise |
| UserLookup.SetName | django_utz/decorators/models/utils.py:42-46 | `__set_name__` accepts a str name only, and keeps the function |
| UserLookup.FunctionAttributeCallsItsFunction | django_utz/decorators/models/utils.py:31-49 | whatever name the descriptor is bound under, access (`__get__`) calls the function it was built from on the instance |
| UserLookup.FindUserField | django_utz/decorators/models/utils.py:96-123 | `find_user_field` returns the dot-join of the discovered path, None, or the exception raised by the search |
| UserLookup.ChainSegments | django_utz/decorators/models/utils.py:116 | the segments of a chain are field names, so they are non-empty and contain no dot |
| UserLookup.FoundFieldPath | django_utz/decorators/models/utils.py:112-116 | a returned path is the dot-join of a ForeignKey/OneToOne chain to the user model, and traversing it follows exactly that chain |
| UserLookup.TraverseRelated | django_utz/decorators/models/utils.py:73-81 | a str `related_user` is traversed with default None, and anything else gives None |
| UserLookup.GetUser | django_utz/decorators/models/utils.py:53-92 | an error while picking the user is raised as is; a picked user is returned exactly when it is falsy or its class is decorated, and ModelError is raised otherwise; the only errors are AttributeError, ModelError, IndexError and RecursionError |
| UserLookup.UserModelResolvesToItself | django_utz/decorators/models/utils.py:69 | an instance of the user model resolves to itself |
| UserLookup.RequestUserWhenNotRelated | django_utz/decorators/models/utils.py:84 | with `use_related_user_timezone` false, the request user is the answer |
| UserLookup.ConfiguredRelatedUser | django_utz/decorators/models/utils.py:70-73 | a configured `related_user` path is followed from the instance, without searching |
| UserLookup.DiscoveredRelatedUser | django_utz/decorators/models/utils.py:74-81 | without a configured path, the discovered chain is followed |
| UserLookup.NoRelatedUserIsModelError | django_utz/decorators/models/utils.py:79 | with neither a configured nor a discovered path, `get_user` raises ModelError |
| UserLookup.NeverModelConfigurationError | django_utz/decorators/models/utils.py:74-78 | the ModelConfigurationError branch cannot be reached |
| GeneratedAttrs.AttrName | django_utz/models/mixins.py:188 | f"{field}_{suffix}" is the field, an underscore, then the suffix |
| GeneratedAttrs.AttrNameInjective | django_utz/models/mixins.py:188 | under one suffix, distinct fields get distinct attribute names |
| GeneratedAttrs.Installed | django_utz/models/mixins.py:182-188 | after the loop, each listed field has its attribute, nothing else is added, and attributes that are not generated are unchanged |
| GeneratedAttrs.InstalledSnoc | django_utz/models/mixins.py:182-188 | one more field adds exactly one attribute |
| GeneratedAttrs.InstalledIdempotent | django_utz/models/mixins.py:177-189 | re-installing with the same property values changes nothing |
| GeneratedAttrs.LaterInstanceOverwritesProperties | django_utz/models/mixins.py:150-153 | the properties live on the shared class: after a second instance with another user has run the generator, the attribute holds the second user's property, not the first's |
| GeneratedAttrs.InstallOnInstance | django_utz/models/mixins.py:185-188 | a generator that writes into the instance's own attributes gives that instance a property bound to its user for every listed field, keeps the instance's other attributes and adds no others, and leaves every other instance unchanged |
| GeneratedAttrs.EachInstanceKeepsItsUser | django_utz/models/mixins.py:185-188 | with per-instance installation, two instances with different users each read the property bound to their own user |
| GeneratedAttrs.SetAttrsFor | django_utz/models/mixins.py:182-188 | the `setattr` loop equals its specification: the fields are installed in order, stopping at the first exception |
| GeneratedAttrs.PrefixErrorPersists | django_utz/models/mixins.py:182-188 | once a prefix of the fields stops with an exception, the whole loop stops with it |
| GeneratedAttrs.InstallAllSucceeds | django_utz/models/mixins.py:182-188 | when every attribute is built, the loop installs all of them and raises nothing |
| GeneratedAttrs.InstallAllStopsAtFirstError | django_utz/models/mixins.py:182-188 | the loop stops at the first field whose attribute fails, with that field's error, having installed the earlier fields |
| GeneratedAttrs.FirstNonStr | django_utz/decorators/models.py:230-232 | the index of the first configured entry that is not a str |
| GeneratedAttrs.InstallEntries | django_utz/decorators/models.py:227-240 | over entries that are all str, the loop over configured entries is the plain install loop |
| GeneratedAttrs.SetAttrsForEntries | django_utz/decorators/models.py:227-240 | the imperative loop over configured entries equals its specification |
| GeneratedAttrs.FirstNonStrAt | django_utz/decorators/models.py:230-232 | the first non-str entry is at `i` when every entry before `i` is a str |
| GeneratedAttrs.FirstNonStrAtLeast | django_utz/decorators/models.py:230-232 | the first non-str entry is after `i` when every entry up to `i` is a str |
| ModelMixins.UserTimezone | django_utz/models/mixins.py:54-61 | FieldError when the attribute is None; ValueError when it is non-empty and invalid; otherwise the value, else `settings.TIME_ZONE`, else "UTC", so the result is never falsy |
| ModelMixins.EmptyTimezoneFallsBack | django_utz/models/mixins.py:58-61 | an empty timezone falls back to the project setting, then to "UTC" |
| ModelMixins.UserPreCheck | django_utz/models/mixins.py:70-86 | TypeError for a class that is not a user class; ImproperlyConfigured without the timezone attribute; otherwise the timezone field gets `validate_timezone` |
| ModelMixins.UserPreCheckIdempotent | django_utz/models/mixins.py:80-85 | repeating the pre-check leaves the class as one check left it, with the validator present |
| ModelMixins.ModelPreCheck | django_utz/models/mixins.py:162-174 | AssertionError when `_model_superclass` is not a model; ImproperlyConfigured for a class that is not a user class and does not inherit it; AttributeError without `time_related_fields` |
| ModelMixins.InheritedBaseAccepted | django_utz/models/mixins.py:169 | a model that inherits `_model_superclass` only through another base passes here, while the earlier generation rejects it |
| ModelMixins.CheckUserHasMixin | django_utz/models/mixins.py:222-230 | passes exactly for an instance of a subclass of UTZUserModelMixin, and raises ImproperlyConfigured otherwise |
| ModelMixins.FindUserRelatedModelField | django_utz/models/mixins.py:233-255 | the imperative search under the mixin's policy equals the specification shared with `find_user_field` |
| ModelMixins.CreateUtzMethodFor | django_utz/models/mixins.py:192-218 | ValueError for a field not in `time_related_fields`; the user's error when no user is found; otherwise the property in that user's timezone |
| ModelMixins.GenerateUtzProperties | django_utz/models/mixins.py:177-189 | AssertionError unless `time_related_fields` is a list; otherwise the install loop over the listed fields |
| ModelMixins.GeneratedProperties | django_utz/models/mixins.py:182-188 | with a resolvable user, exactly one property "<field>_<suffix>" per listed field; with no user, the user's error and nothing installed |
| ModelMixins.MixinCheckOnlyWhenSaved | django_utz/models/mixins.py:212-213 | an unsaved user instance skips the user-mixin check, and a saved one is checked |
| UtzMixins.PytzOnlyValid | django_utz_mixins/utils.py:17-28 | a name is valid exactly when pytz knows it; a tzinfo object raises AttributeError, which is not caught |
| UtzMixins.UserTimezone | django_utz_mixins/mixins.py:60-67 | succeeds exactly on an empty name or a name pytz knows, returning the stored value; FieldError on None, AttributeError on a tzinfo object, ValueError on any other name |
| UtzMixins.StricterThanLaterGeneration | django_utz_mixins/utils.py:17-28 | whatever this generation accepts the later `is_timezone_valid` accepts; a zoneinfo-only name gives ValueError and a tzinfo object AttributeError here, while both are valid there |
| UtzMixins.EmptyTimezoneStaysEmpty | django_utz_mixins/mixins.py:60-67 | an empty timezone comes back empty, with no fallback |
| UtzMixins.UserPreCheck | django_utz_mixins/mixins.py:76-80 | TypeError exactly for a class that is not a user class |
| UtzMixins.ModelPreCheck | django_utz_mixins/mixins.py:154-166 | `_model_superclass` must be a model and a DIRECT base, else AssertionError or NotImplementedError; then `time_related_fields` is required |
| UtzMixins.InheritedOnlyBaseRejected | django_utz_mixins/mixins.py:161-162 | a model that inherits `_model_superclass` only through another base is rejected with NotImplementedError |
| UtzMixins.FindUserRelatedModelField | django_utz_mixins/mixins.py:220-230 | the name of a concrete field at some index `i` of `_meta.fields` whose related model is a user class, with no user field before `i`; None exactly when there is no such field |
| UtzMixins.FirstUserField | django_utz_mixins/mixins.py:226-230 | the position of the first user field, with none before it |
| UtzMixins.FindsLaterUserField | django_utz_mixins/mixins.py:220-230 | the single-level scan finds a user field declared after another relation, which the recursive search of the later generation misses |
| UtzMixins.CheckUserHasMixin | django_utz_mixins/mixins.py:211-217 | passes exactly for an instance of a subclass of the user mixin, and raises NotImplementedError otherwise |
| UtzMixins.CreateUtzMethodFor | django_utz_mixins/mixins.py:184-208 | ValueError for an unlisted field; the user's error; otherwise the property in the user's timezone |
| UtzMixins.PropertyUserHasMixin | django_utz_mixins/mixins.py:202-203 | a property's user has always passed the user-mixin check, whether or not the instance is saved |
| UtzMixins.GenerateUtzProperties | django_utz_mixins/mixins.py:169-181 | AssertionError unless `time_related_fields` is a list; otherwise the install loop |
| UtzMixins.GeneratedProperties | django_utz_mixins/mixins.py:174-181 | one property "<field>_<suffix>" per listed field |
| ConfigStore.ValidateConfig | django_utz/base.py:30-33 | a validator runs only on a value that is not None, and its exception is the result |
| ConfigStore.Lookup | django_utz/base.py:19-34 | AttributeError without `UTZMeta`; otherwise the stored value or the default, unless the validator rejects it |
| ConfigStore.Store | django_utz/base.py:50-67 | rejects names outside the allowed ones except `_decorated`; validates before writing; on success writes that config alone |
| ConfigStore.GetAfterSet | django_utz/base.py:66 | after a successful set, the getter returns the new value, whatever the default |
| ConfigStore.SetLeavesOtherConfigs | django_utz/base.py:66 | a successful set leaves every other config as the getter saw it |
| ConfigStore.UnsetIsNotValidated | django_utz/base.py:31-33 | an unset config read with default None is None and is never validated |
| ConfigStore.RegistrationKey | django_utz/base.py:88-89 | the explicit config name, or else the function name with "validate_" removed |
| ConfigStore.Registry.constructor | django_utz/base.py:72 | the registry starts empty |
| ConfigStore.Registry.Register | django_utz/base.py:79-92 | files the validator under its key, overwriting any earlier one |
| ConfigStore.Getter.constructor | django_utz/base.py:17 | `validators or {}`: an absent or EMPTY registry is replaced by a fresh empty dict |
| ConfigStore.Getter.Get | django_utz/base.py:19-34 | the getter is the lookup over its registry |
| ConfigStore.Setter.constructor | django_utz/base.py:48 | `validators or {}`, as for the getter |
| ConfigStore.Setter.Set | django_utz/base.py:50-67 | the setter is the store over its registry, rejecting with ConfigurationError |
| ConfigStore.LateRegistrationIsIgnored | django_utz/base.py:17 | a getter made before its validators are registered never validates: an invalid value is returned |
| ConfigStore.LateRegistrationApplies | django_utz/base.py:17 | with the registry shared, the later validator does run and raises ConfigurationError |
| ModelPreparation.RegularValidators | django_utz/decorators/models.py:156-182 | `datetime_fields` must be a list, a tuple or "__all__"; `attribute_suffix` a str; `use_related_user_timezone` a bool; `related_user` is validated only where that generation has it |
| ModelPreparation.FirstUnset | django_utz/decorators/models/base.py:28-32 | the first required config that is missing or falsy |
| ModelPreparation.CheckModelClass | django_utz/decorators/models/base.py:10-33 | TypeError for a non-model; AttributeError without `UTZMeta`; a config error for a `UTZMeta` that is not a class or a falsy required config; TypeError for `required_configs=None`; otherwise the class unchanged |
| ModelPreparation.SetConfigOn | django_utz/decorators/models/bases.py:83-100 | a successful set changes nothing but `UTZMeta` |
| ModelPreparation.MarkDecorated | django_utz/decorators/models.py:131 | `UTZMeta._decorated = True` makes the class decorated |
| ModelPreparation.WithMixin | django_utz/decorators/models.py:99-100 | the mixin heads the bases, and every earlier superclass is kept |
| ModelPreparation.DateTimeFieldList | django_utz/decorators/models/decorators.py:163-165 | a list of the names of exactly the model's DateTimeFields |
| ModelPreparation.ExpandAllFields | django_utz/decorators/models/decorators.py:131-132 | the "__all__" step changes nothing but `UTZMeta` |
| ModelPreparation.DefaultTo | django_utz/decorators/models/decorators.py:133-140 | a defaulting step changes nothing but `UTZMeta` |
| ModelPreparation.GetterName | django_utz/decorators/models.py:207-208 | the generated function is named "get_" followed by the attribute name |
| ModelPreparation.UpdateAttrs | django_utz/decorators/models/decorators.py:188-205 | `update_model_attrs` changes only the class attributes |
| ModelPreparation.UpdateAttrsInstalls | django_utz/decorators/models/decorators.py:194-205 | succeeds iff every listed name is a DateTimeField, raising the config error otherwise; on success installs exactly one attribute per listed field |
| ModelPreparation.PreparedUserModel | django_utz/decorators/models/decorators.py:101-112 | prepared iff the timezone field names a field; then the field carries `validate_timezone`, the mixin heads the bases and preparing again keeps the fields; on failure the class is unchanged |
| ModelPreparation.PreparedRegularDefaults | django_utz/decorators/models/decorators.py:130-140 | "__all__" becomes the DateTimeField list, an empty suffix becomes "utz", a falsy flag becomes False; nothing else but `UTZMeta` and the attributes changes |
| ModelPreparation.ExpandAllFieldsResult | django_utz/decorators/models/decorators.py:131-132 | what the "__all__" step leaves in `UTZMeta` |
| ModelPreparation.DefaultToResult | django_utz/decorators/models/decorators.py:133-140 | a falsy config is replaced by the default, and a truthy one is kept |
| ModelPreparation.AllFieldsAreInstalled | django_utz/decorators/models/decorators.py:130-140 | with "__all__" and well-typed configs, preparation succeeds and installs an attribute for every DateTimeField |
| ModelPreparation.AllFieldsDefaults | django_utz/decorators/models/decorators.py:130-140 | the class that reaches `update_model_attrs` when `datetime_fields` is "__all__" |
| ModelPreparation.AllFieldsNameDateTimeFields | django_utz/decorators/models/decorators.py:163-165 | every name "__all__" expands to is a DateTimeField of the model |
| ModelPreparation.PrepareRegularTouchesOnlyItsConfigs | django_utz/decorators/models/decorators.py:130-140 | preparation writes only its three configs |
| ModelPreparation.PrepareRegularKeepsClass | django_utz/decorators/models/decorators.py:130-140 | preparation changes only `UTZMeta` and the class attributes |
| ModelDecorators.RulesOf | django_utz/decorators/models/decorators.py:143-160 | the class-based decorators raise ModelConfigurationError and never validate `_decorated` |
| ModelDecorators.CheckModel | django_utz/decorators/models/decorators.py:88-127 | user model: ModelError unless it is the project user model, then the base checks with `timezone_field`; regular: the base checks with `datetime_fields`, then a truthy `related_user` must be a str |
| ModelDecorators.ModelDecorator.Init | django_utz/decorators/models/bases.py:20-22 | the decorator holds the model it was built for |
| ModelDecorators.ModelDecorator.GetConfig | django_utz/decorators/models/bases.py:66-80 | the config lookup under the decorator's rules |
| ModelDecorators.ModelDecorator.SetConfig | django_utz/decorators/models/bases.py:83-100 | the config store under the decorator's rules; the model changes only on success |
| ModelDecorators.ModelDecorator.PrepareUserModel | django_utz/decorators/models/decorators.py:101-112 | the in-place preparation equals the user-model preparation function |
| ModelDecorators.ModelDecorator.UpdateModelAttrs | django_utz/decorators/models/decorators.py:188-205 | the in-place loop equals `UpdateAttrs` |
| ModelDecorators.ModelDecorator.PrepareRegularModel | django_utz/decorators/models/decorators.py:130-140 | the in-place preparation equals the regular preparation function |
| ModelDecorators.ModelDecorator.Call | django_utz/decorators/models/bases.py:25-29 | `__call__` prepares the model and returns it, or the preparation's error |
| ModelDecorators.Create | django_utz/decorators/models/bases.py:20-22 | construction fails exactly when `check_model` does, and otherwise holds the model marked `_decorated` |
| ModelDecorators.Decorate | django_utz/decorators/utils.py:131-147 | `transform_utz_decorator(D)(cls)` is `D(cls)()` |
| ModelDecorators.CallNeverRejectsCheckedClass | django_utz/decorators/utils.py:142-147 | for a checked class, decoration is the preparation of the marked class |
| ModelDecorators.MarkedEvenWhenPreparationFails | django_utz/decorators/models/bases.py:20-22 | the class-based decorators mark the class before preparing it, so a failed preparation leaves it marked |
| ModelDecorators.ArticlePreparationFails | django_utz/decorators/models/decorators.py:194-201 | a concrete model that lists a non-datetime field fails preparation with ModelConfigurationError |
| ModelDecorators.ArticleUpdateFails | django_utz/decorators/models/decorators.py:194-201 | `update_model_attrs` stops with ModelConfigurationError at a listed field that is not a DateTimeField |
| ModelDecorators.NonDateTimeFieldRejected | django_utz/decorators/models/decorators.py:194-201 | decorating that model fails, and the class is left marked |
| ModelDecoratorFunctions.CheckUserModel | django_utz/decorators/models.py:75-84 | the base checks with `timezone_field` first, then ModelError unless it is the project user model |
| ModelDecoratorFunctions.CheckOrderDiffersFromClassBased | django_utz/decorators/models.py:75-84 | for a non-user model without `UTZMeta`, the function-style check raises AttributeError where the class-based one raises ModelError |
| ModelDecoratorFunctions.PrepareUserModelClass | django_utz/decorators/models.py:87-101 | equals the shared user-model preparation, raising ConfigurationError |
| ModelDecoratorFunctions.UpdateModelAttrs | django_utz/decorators/models.py:221-240 | equals the shared `UpdateAttrs` under the function-style rules |
| ModelDecoratorFunctions.PrepareModel | django_utz/decorators/models.py:185-195 | equals the shared regular preparation |
| ModelDecoratorFunctions.UserModel | django_utz/decorators/models.py:104-132 | `usermodel`: check, prepare, then mark |
| ModelDecoratorFunctions.Model | django_utz/decorators/models.py:243-276 | `model`: check, prepare, then mark |
| ModelDecoratorFunctions.UserModelMarkedOnlyOnSuccess | django_utz/decorators/models.py:129-132 | the class is marked exactly when check and preparation succeed, and a failure leaves `UTZMeta` as it was |
| ModelDecoratorFunctions.ModelMarkedOnlyOnSuccess | django_utz/decorators/models.py:273-276 | the same for `model`: `_decorated` is unchanged on failure |
| ModelDecoratorFunctions.ModelKeepsClass | django_utz/decorators/models.py:243-276 | `model` changes only `UTZMeta` and the class attributes |
| Schema.ConcreteFieldsMembers | django_utz/decorators/models/utils.py:110 | `_meta.fields` holds exactly the fields that are neither many-to-many nor reverse relations |
| Schema.GetField | django_utz/decorators/models.py:89-98 | `_meta.get_field` finds a field of that name, or raises FieldDoesNotExist |
| Schema.IsDateTimeField | django_utz/decorators/utils.py:91-100 | defined exactly for existing fields, and true iff the field is a DateTimeField (also django_utz_mixins/mixins.py:233-240) |
| Schema.IsTimeField | django_utz/decorators/utils.py:103-112 | true iff the field is a TimeField (also django_utz_mixins/mixins.py:243-250) |
| Schema.DateTimeFieldNames | django_utz/decorators/models/decorators.py:163-165 | exactly the names of the DateTimeFields |
| Schema.WithValidatorOnce | django_utz/models/mixins.py:82-83 | the validator is present afterwards, added only if absent, with the other validators unchanged and in order |
| Schema.WithValidatorOnceIdempotent | django_utz/models/mixins.py:82-83 | adding it twice is adding it once, so exactly one copy remains |
| Schema.AddValidatorTo | django_utz/decorators/models/decorators.py:104-107 | only the named field's validators change |
| Schema.AddValidatorToIdempotent | django_utz/decorators/models.py:89-93 | repeating the addition changes nothing, and the field names are kept |
| FieldAdding.WithDefaultFormat | django_utz/serializers/mixins.py:118-119 | "format" is added only when absent; an explicit format is kept |
| FieldAdding.WithDefaultFormatIdempotent | django_utz/serializers/mixins.py:118-119 | a second default never overrides the first |
| FieldAdding.FieldKwargs | django_utz/decorators/serializers.py:156-161 | the configured format is added only when it is set and "format" is absent; the declared kwargs are kept |
| FieldAdding.StoredKwargs | django_utz/decorators/serializers/decorators.py:128-133 | the in-place update of one field's kwargs leaves every other field's kwargs unchanged |
| FieldAdding.AddFieldsLoop | django_utz/decorators/serializers.py:127-140 | the `setattr` loop equals the field-adding specification |
| FieldAdding.AddFieldsKeepsClass | django_utz/decorators/serializers.py:127-140 | the loop changes nothing but the class attributes and `Meta.extra_kwargs` |
| FieldAdding.AddedFields | django_utz/decorators/serializers.py:133-140 | existing attributes are kept, and each wanted field that is included and not yet defined gets a new field |
| FieldAdding.NothingAddedWithoutField | django_utz/decorators/serializers/decorators.py:115 | when no field can be built, the class comes back unchanged |
| FieldAdding.FailsOnFirstWantedField | django_utz/decorators/serializers/decorators.py:115 | and it fails exactly when some datetime field is included and not yet defined |
| FieldAdding.NoStepFails | django_utz/decorators/serializers.py:127-140 | with a buildable field and str names, the loop raises nothing |
| SerializerDecoratorFunctions.SerializerValidators | django_utz/decorators/serializers.py:54-69 | `auto_add_fields` must be a bool and `datetime_format` a valid format, or ConfigurationError |
| SerializerDecoratorFunctions.FieldNameValues | django_utz/decorators/serializers.py:33-34 | the names of all the model's fields |
| SerializerDecoratorFunctions.SerializerFields | django_utz/decorators/serializers.py:24-37 | `set(Meta.fields)` or every field name, minus `set(Meta.exclude)`; TypeError for non-iterables |
| SerializerDecoratorFunctions.AllStringIsCharacters | django_utz/decorators/serializers.py:28-29 | with `fields = "__all__"`, no field name longer than one character is in the set |
| SerializerDecoratorFunctions.SerializerFieldsCorrected | django_utz/decorators/serializers.py:24-37 | the corrected set differs only for "__all__" |
| SerializerDecoratorFunctions.CorrectedAllIncludesEveryField | django_utz/decorators/serializers.py:24-37 | corrected, "__all__" includes every model field that is not excluded |
| SerializerDecoratorFunctions.CheckSerializerClass | django_utz/decorators/serializers.py:72-110 | TypeError for a non-ModelSerializer, ModelError for an undecorated model, AttributeError without `UTZMeta`, ConfigurationError for a falsy required config |
| SerializerDecoratorFunctions.AutoAddFalseRejected | django_utz/decorators/serializers.py:105-109 | `auto_add_fields = False` counts as missing and is rejected |
| SerializerDecoratorFunctions.NonClassSerializerMetaPasses | django_utz/decorators/serializers.py:96-100 | a serializer whose `UTZMeta` is not a class passes the class test |
| SerializerDecoratorFunctions.GetUtzDateTimeField | django_utz/decorators/serializers.py:145-161 | a UTZDateTimeField with the given kwargs kept, and "format" added only when it is configured and absent |
| SerializerDecoratorFunctions.PrepareSerializerClass | django_utz/decorators/serializers.py:113-142 | the imperative preparation equals its specification |
| SerializerDecoratorFunctions.UnchangedWithoutFieldsOrAutoAdd | django_utz/decorators/serializers.py:122-126 | with an empty field set, or `auto_add_fields` false or unset, the class is returned unchanged |
| SerializerDecoratorFunctions.PreparedAddsIncludedDateTimeFields | django_utz/decorators/serializers.py:127-140 | each model datetime field in the field set that is not yet defined gets a field, and no other attribute changes |
| SerializerDecoratorFunctions.MarkSerializerDecorated | django_utz/decorators/serializers.py:201 | the class is marked, and only `UTZMeta` changes |
| SerializerDecoratorFunctions.ModelSerializer | django_utz/decorators/serializers.py:164-202 | `modelserializer`: check, prepare, then mark |
| SerializerDecoratorFunctions.MarkedOnlyOnSuccess | django_utz/decorators/serializers.py:199-202 | the class is marked exactly when check and preparation succeed |
| SerializerDecorators.ModelDecoratedTest | django_utz/decorators/serializers/decorators.py:53 | true iff the model's `UTZMeta` is decorated and has a truthy `datetime_fields`; AttributeError when `_decorated` is missing |
| SerializerDecorators.CheckModelSerializer | django_utz/decorators/serializers/decorators.py:41-68 | TypeError, then ModelError or AttributeError about the model, then AttributeError without `UTZMeta`, then SerializerConfigurationError for a falsy required config |
| SerializerDecorators.ConcreteFieldNames | django_utz/decorators/serializers/decorators.py:100-101 | the names of exactly the model's `_meta.fields` |
| SerializerDecorators.ModelSerializerDecorator.Init | django_utz/decorators/serializers/decorators.py:21-22 | the decorator holds the serializer and its model |
| SerializerDecorators.ModelSerializerDecorator.GetConfig | django_utz/decorators/serializers/decorators.py:157-171 | the config lookup on the serializer's `UTZMeta` |
| SerializerDecorators.ModelSerializerDecorator.SetConfig | django_utz/decorators/serializers/decorators.py:137-154 | the config store over `all_configs`, rejecting with SerializerConfigurationError |
| SerializerDecorators.ModelSerializerDecorator.PrepareSerializer | django_utz/decorators/serializers/decorators.py:88-117 | the in-place preparation equals the class-based preparation as written |
| SerializerDecorators.ModelSerializerDecorator.Call | django_utz/decorators/serializers/decorators.py:34-38 | prepares, then raises TypeError unless the result is a ModelSerializer |
| SerializerDecorators.Create | django_utz/decorators/serializers/decorators.py:21-22 | construction fails exactly when `check_model_serializer` does |
| SerializerDecorators.Decorate | django_utz/decorators/serializers/decorators.py:176-209 | `modelserializer(s)`: construct the decorator, then call it |
| SerializerDecorators.PreparedKeepsClass | django_utz/decorators/serializers/decorators.py:88-117 | preparation keeps a ModelSerializer a ModelSerializer, and touches only its attributes and `extra_kwargs` |
| SerializerDecorators.MarkedEvenWhenPreparationFails | django_utz/decorators/serializers/decorators.py:21-22 | the serializer is marked before preparation, so a failure leaves it marked |
| SerializerDecorators.AsWrittenNeverAddsFields | django_utz/decorators/serializers/decorators.py:115 | as written, the decorator never adds a field |
| SerializerDecorators.AsWrittenFailsOnIncludedField | django_utz/decorators/serializers/decorators.py:115 | as written, it raises TypeError exactly when some datetime field is included and not yet defined |
| SerializerDecorators.AllFieldsMatchesNothing | django_utz/decorators/serializers/decorators.py:100-101 | as written, "__all__" includes nothing, and preparation leaves the serializer as it was |
| SerializerDecorators.NoStepFailsOrAdds | django_utz/decorators/serializers/decorators.py:107-116 | a policy that includes nothing neither raises nor adds |
| SerializerDecorators.CorrectedAllIncludesConcreteFields | django_utz/decorators/serializers/decorators.py:100-101 | corrected, "__all__" includes every concrete field |
| SerializerDecorators.CorrectedAddsIncludedFields | django_utz/decorators/serializers/decorators.py:107-116 | corrected, each included datetime field that is not yet defined gets a field, and nothing fails |
| SerializerMixins.PreCheck | django_utz/serializers/mixins.py:87-103 | AssertionError, ImproperlyConfigured unless the mixin is a direct base, AttributeError without `datetime_fields` |
| SerializerMixins.Processed | django_utz/serializers/mixins.py:137 | `f in Meta.fields or f not in Meta.exclude`, with the AttributeError of a missing attribute |
| SerializerMixins.Included | django_utz/serializers/mixins.py:133-139 | the evidently intended selection: every field for an unset or "__all__" `fields`, minus `exclude` |
| SerializerMixins.UtzFieldFor | django_utz/serializers/mixins.py:106-121 | ValueError for a name not in `datetime_fields`; None for a field that is not a datetime field; otherwise a field whose kwargs are defaulted in place |
| SerializerMixins.FieldValueStable | django_utz/serializers/mixins.py:116-120 | building a field again gives the same field |
| SerializerMixins.AddedFieldsOverride | django_utz/serializers/mixins.py:133-139 | existing entries are kept, except that each selected datetime field is (re)placed |
| SerializerMixins.ChosenSkips | django_utz/serializers/mixins.py:136-137 | an entry that is not selected contributes nothing |
| SerializerMixins.ChosenTakes | django_utz/serializers/mixins.py:136-138 | a selected entry contributes its own name |
| SerializerMixins.AllFieldsWithoutExcludeFails | django_utz/serializers/mixins.py:137 | with `fields = "__all__"` and no `exclude`, the loop succeeds only if every datetime field name is a substring of "__all__" (such as "all"); any other name reaches the missing `exclude` and raises AttributeError |
| SerializerMixins.DocumentedSerializerFails | django_utz/serializers/mixins.py:137 | a serializer shaped like the documented example fails with AttributeError |
| SerializerMixins.CorrectedAllFieldsSelectsEvery | django_utz/serializers/mixins.py:133-139 | corrected, "__all__" without `exclude` adds every datetime field |
| SerializerMixins.UTZModelSerializer.constructor | django_utz/serializers/mixins.py:57-65 | the serializer keeps its `Meta` and the mixin attributes |
| SerializerMixins.Create | django_utz/serializers/mixins.py:61-64 | construction fails exactly when `_model_serializer_pre_check` fails, with its error; otherwise a fresh serializer holding its `Meta` and the mixin attributes |
| SerializerMixins.UTZModelSerializer.GetUtzFieldForDateTimeField | django_utz/serializers/mixins.py:106-121 | equals `UtzFieldFor`, including the in-place update of `extra_kwargs` |
| SerializerMixins.UTZModelSerializer.GetAndAddUtzFieldsLoop | django_utz/serializers/mixins.py:124-139 | the loop over the field dict equals its specification |
| SerializerMixins.UTZModelSerializer.GetFields | django_utz/serializers/mixins.py:69-73 | the fields are augmented only when `add_utz_fields` is true |
| UtzSerializerMixins.PreCheck | django_utz_mixins/serializers.py:62-74 | AssertionError, NotImplementedError unless the mixin is a direct base, AttributeError without `time_related_fields` |
| UtzSerializerMixins.FieldForKind | django_utz_mixins/serializers.py:87-91 | a DateTimeField gets UTZDateTimeField, a TimeField gets UTZTimeField, both with the format; any other field gets nothing |
| UtzSerializerMixins.AddUtzFieldFor | django_utz_mixins/serializers.py:77-91 | ValueError for an unlisted field; as written, every listed field raises; corrected, it is the field for its kind |
| UtzSerializerMixins.AsWrittenNeverAdds | django_utz_mixins/serializers.py:87 | as written, the loop never changes `fields` |
| UtzSerializerMixins.AsWrittenNeverAddsSuffix | django_utz_mixins/serializers.py:94-105 | the same over any suffix of the listed entries |
| UtzSerializerMixins.CorrectedAddsByKind | django_utz_mixins/serializers.py:87-91 | corrected, each selected DateTimeField or TimeField gets its field, and every other entry is kept |
| UtzSerializerMixins.ChosenSplit | django_utz_mixins/serializers.py:102-104 | the names the loop selects, split at its first entry |
| UtzSerializerMixins.UTZModelSerializer.constructor | django_utz_mixins/serializers.py:29-37 | the serializer keeps its `Meta`, format and fields |
| UtzSerializerMixins.UTZModelSerializer.AddUtzFieldsLoop | django_utz_mixins/serializers.py:94-105 | the in-place loop equals its specification as written |
| UtzSerializerMixins.Create | django_utz_mixins/serializers.py:33-37 | the pre-check's error, or a serializer whose fields the loop has processed |
| Signals.AttrOf | django_utz/signals.py:27 | `getattr` by a runtime name: TypeError for a name that is not a str, AttributeError for a missing attribute |
| Signals.PreviousTimezone | django_utz/signals.py:23-26 | the stored value, or "" when there is no record |
| Signals.ChangeHandler | django_utz/signals.py:16-36 | nothing unless the sender is decorated; an event only when the previous and current values differ, carrying both |
| Signals.PreSave | django_utz/signals.py:42-43 | the handler runs only when connected, for the user model alone |
| Signals.OnlyTrueEnables | django_utz/signals.py:42 | only the boolean True connects the handler; a truthy 1 does not |
| Signals.FiresIffChanged | django_utz/signals.py:29-35 | exactly one event when the value differs from the stored one, and none otherwise |
| Signals.NewUserWithTimezoneFires | django_utz/signals.py:25-29 | creating a user with a non-empty timezone fires an event with previous "" |
| Signals.UnchangedNeverFires | django_utz/signals.py:29 | re-saving the stored values never fires |
| ModelSignals.PreSaveCapture | django_utz/models/signals.py:15-23 | ignores other senders and users without the mixin; captures the stored value (or '') and the new one by `user_timezone_field` |
| ModelSignals.PostSaveEvent | django_utz/models/signals.py:26-29 | an event iff not created and old != new, carrying exactly what was captured |
| ModelSignals.SaveEvent | django_utz/models/signals.py:15-29 | a save fails only as pre_save does, and sends an event only when the receiver is kept, the save was an update and the value changed |
| ModelSignals.SaveSignals.constructor | django_utz/models/signals.py:15 | no receiver is pending |
| ModelSignals.SaveSignals.PreSave | django_utz/models/signals.py:15-29 | raises what the capture raises; a kept receiver becomes pending |
| ModelSignals.SaveSignals.PostSave | django_utz/models/signals.py:25-29 | a pending receiver for that sender runs once and is consumed; as written nothing is ever pending |
| ModelSignals.SaveSignals.Save | django_utz/models/signals.py:15-29 | the two phases compose to `SaveEvent` |
| ModelSignals.AsWrittenNeverFires | django_utz/models/signals.py:24 | as written, no save sends the event |
| ModelSignals.KeptReceiverFiresIffUpdated | django_utz/models/signals.py:26-29 | with the receiver kept, an update that changes the timezone sends exactly one event; a creation or an unchanged value sends none |
| ModelSignals.LocalReceiverLosesChange | django_utz/models/signals.py:24-29 | a change from "UTC" to "Africa/Lagos" is lost as written and sent when the receiver is kept |
| MixinSignals.PreSaveHandler | django_utz_mixins/signals.py:10-18 | only the user model; DoesNotExist for an unsaved user; an event iff old != new, with sender the user model |
| MixinSignals.FiresIffChanged | django_utz_mixins/signals.py:17-18 | exactly one event when the value changed, and none otherwise |
| MixinSignals.MissingFieldNameIsTypeError | django_utz_mixins/signals.py:14-15 | without `user_timezone_field`, the lookup raises TypeError |
| MixinSignals.NewUserRaises | django_utz_mixins/signals.py:15 | saving a user that does not exist yet raises DoesNotExist |
| Middleware.StoredFor | django_utz/middleware.py:13-16 | the user when authenticated, None otherwise |
| Middleware.ReadSlot | django_utz/middleware.py:30-34 | a user only if the slot exists, is not None and is authenticated |
| Middleware.ReadBackAfterRequest | django_utz/middleware.py:13-16 | after a request, reading gives the authenticated user, or nothing for an anonymous one |
| Middleware.LocalThreadStorage.constructor | django_utz/middleware.py:6 | the slot starts absent |
| Middleware.LocalThreadStorage.GetRequestUser | django_utz/middleware.py:28-34 | returns the stored user only when it is authenticated |
| Middleware.LocalThreadStorage.ProcessRequest | django_utz/middleware.py:10-16 | the slot is set whatever it held, and reading it back gives what was stored |
| Middleware.LocalThreadStorage.ProcessResponse | django_utz/middleware.py:19-25 | the slot is removed and the response is returned unchanged; reading afterwards gives None |
| UtzDateTime.AwareDateTime | django_utz/datetime.py:11-29 | TypeError for anything but a datetime; a naive value gets the default tz and an aware one keeps its own; the calendar fields are copied |
| UtzDateTime.AwareIsKept | django_utz/datetime.py:28 | an aware datetime comes back as it is |
| UtzDateTime.AwareDateTimeIdempotent | django_utz/datetime.py:11-29 | building from a built value changes nothing, under any default |
| UtzDateTime.Utzdatetime.constructor | django_utz/datetime.py:8 | `convert_to_local_time` starts False |
| UtzDateTime.Utzdatetime.FromDatetime | django_utz/datetime.py:11-29 | the new object holds the aware copy with the flag False, or TypeError |
| UtzDateTime.Utzdatetime.RegardUsetz | django_utz/datetime.py:31-34 | sets the flag whatever it was, and returns the object itself |
| UtzDateTime.Utzdatetime.DisregardUsetz | django_utz/datetime.py:36-39 | clears the flag whatever it was, and returns the object itself |
| UtzDateTime.FieldGetter | django_utz/decorators/models.py:210-214 | the error of `get_user` propagates; with no user, the value is made aware; otherwise it is converted to the user's timezone |
| UtzDateTime.NoUserGivesAwareCopy | django_utz/decorators/models/decorators.py:177-185 | with no user, the getter never returns a naive datetime and keeps the stored calendar fields |

## Left out

- Timezone conversion (`astimezone` over pytz/zoneinfo, `UserModelUTZMixin.utz`, `to_local_timezone`) is a foreign library. It is a function parameter (`toLocal`), and the property bodies are abstract values.
- `strftime` format validation is a foreign call. Valid formats are an abstract set of strings.
- Timezone validity is a lookup in abstract sets of names. In django_utz/utils.py and django_utz/decorators/utils.py there are two sets, one per database (pytz and zoneinfo), and any tzinfo object is valid.
- UtzMixins.UserTimezone: the earlier generation's `is_timezone_valid` (django_utz_mixins/utils.py:17-28) consults pytz only, so only the pytz set is used there, and a tzinfo object ends in the AttributeError of `pytz.timezone`. pytz's case-insensitive matching of names is folded into the abstract set.
- ModelMixins, ModelSignals and SerializerMixins (all their members): django_utz/models/mixins.py:10 imports `final` from django_utz/utils.py, which does not define it, and django_utz/models/signals.py:5 and django_utz/serializers/mixins.py:6 import that module. As shipped these three modules fail at import. The model assumes a `final` that leaves `to_local_timezone` (django_utz/models/mixins.py:89) callable.
- The earlier generation's `final` (django_utz_mixins/utils.py:31-36) replaces the method it decorates with one that raises NotImplementedError, so `to_local_timezone` (django_utz_mixins/mixins.py:82-83) raises whenever called. Property bodies are abstract values here, so this is not modelled.
- DRF field rendering (`to_representation`, `to_internal_value`), the field modules and the template tags depend on DRF and on Django's template machinery. They are not part of this model.
- Thread-local isolation is concurrency. The storage of one thread is modelled.
- Signal dispatch, receiver registration and ORM lookups are modelled as returned events and as a `stored` record parameter (None when no row has the pk).
- Class mutation (`__bases__` rewrites, `setattr` on classes and on `UTZMeta`) is modelled as updated class descriptors.
- Python object identity, `__init__` chaining and `super()` calls are not modelled. Construction is a `Create` method that runs the checks the constructor runs (`ModelDecorators.Create`, `SerializerDecorators.Create`, `SerializerMixins.Create`, `UtzSerializerMixins.Create`); the mixin models construct through their pre-check functions.
- Recursion depth: a `fuel` parameter stands for the stack frames left. Running out of fuel is Python's RecursionError.
- Attributes of plain values (the methods of a str, the `year` of a datetime, an int's attributes) are not modelled. The model's `getattr` fails on every value that is not a model instance, so a path such as "name.upper" yields the default, where Python returns a bound method.
- Python value equality is structural equality of the modelled values.
- Hashing: among the modelled values, only a list is unhashable.
- `is_naive` is modelled as "no tzinfo". The exceptions of `make_aware` are not modelled.
- django_utz/decorators/bases.py is not part of this model. Its `__init__`, which sets `_decorated`, is folded into `ModelDecorators.Create` and `SerializerDecorators.Create`.
- The "Model not set" and "Serializer not set" errors of the decorator objects are left out: the constructors always set the object.
- The `django_utz/config_factories` module is not part of this model, and neither are the `get_user`, `FunctionAttribute`, `get_datetime_fields` and `ModelError` that django_utz/decorators/models.py and django_utz/decorators/serializers.py import from a `..utils` that django_utz/utils.py does not define.
- ModelDecoratorFunctions.UserModelRules, ModelDecoratorFunctions.ModelRules, SerializerDecoratorFunctions.GetSerializerClassConfig: assume that the unseen `make_utz_config_getter` and `make_utz_config_setter` keep a reference to the module-level validator dicts (django_utz/decorators/models.py:57-61 and 148-152, django_utz/decorators/serializers.py:42-49), so validators registered after the getter is made still run. That is the opposite of django_utz/base.py:17, whose registrar (django_utz/base.py:79) cannot be called as `@registrar(config=...)` and so is evidently not the module these files use. If the unseen module behaved like base.py, an invalid value such as `attribute_suffix = 5` would be returned instead of raising ConfigurationError.
- ModelMixins.GenerateUtzProperties: assumes the entries of `time_related_fields` are str. A non-str entry is outside its precondition.
- UtzMixins.GenerateUtzProperties: the same assumption about the entries of `time_related_fields`.
- GeneratedAttrs.InstallEntries: a non-str entry of `datetime_fields` is modelled as FieldDoesNotExist from `get_field`, not Django's exact exception.
- Signals.ChangeHandler: a `UTZMeta` bound to something that is not a class is modelled as AttributeError on `_decorated`.
- SerializerDecorators.ModelDecoratedTest: the same abstraction; a falsy non-class `UTZMeta` such as None short-circuits the `and` in django_utz/decorators/serializers/decorators.py:53 and ends in ModelError there, while the model gives AttributeError for every non-class `UTZMeta`.
- Signals.PreSave: receiver connection happens once at import; the setting is passed per call.
- SerializerDecoratorFunctions.CheckSerializerClass: `Meta.model` is passed next to the serializer rather than read from it.
- SerializerMixins.UTZModelSerializer.GetFields: `ModelSerializer.get_fields` (reverse relations, declared fields) is the `base` parameter.

## Findings

| source | as written | input that shows it | evidently intended | confidence | as-written member | corrected member |
|---|---|---|---|---|---|---|
| django_utz/decorators/models/utils.py:120 | `field_paths.pop()` runs even in the outermost frame, where the list created at line 103 is still empty | a model with no ForeignKey or OneToOne field | return None when no user path exists | not executed | RelationPaths.RootIndexError | RelationPaths.CorrectedRootWithoutRelation |
| django_utz/decorators/models/utils.py:119 | the search recurses into the related model with no record of the models already visited | a model whose only ForeignKey points to itself | return None on a cycle | not executed | RelationPaths.TrapRaisesRecursionError | RelationPaths.CorrectedTrapIsNone |
| django_utz/base.py:17 | `validators = validators or {}` replaces a registry that is still empty with a new dict | a getter made before its validators are registered, reading an invalid value | share the registry dict whatever its contents; no module shown imports django_utz/base.py, so the effect on the rest of the library is not shown | not executed | ConfigStore.LateRegistrationIsIgnored | ConfigStore.LateRegistrationApplies |
| django_utz/decorators/serializers.py:28-29 | `set(Meta.fields)` on the string "__all__" gives its characters | `fields = "__all__"` with a DateTimeField `created_at` | "__all__" stands for every model field | not executed | SerializerDecoratorFunctions.AllStringIsCharacters | SerializerDecoratorFunctions.CorrectedAllIncludesEveryField |
| django_utz/decorators/serializers/decorators.py:115 | the field factory is called with one argument but requires `serializer_meta` | a serializer with `auto_add_fields = True` that includes a DateTimeField it does not declare | pass `serializer_meta` and add the field | not executed | SerializerDecorators.AsWrittenFailsOnIncludedField | SerializerDecorators.CorrectedAddsIncludedFields |
| django_utz/decorators/serializers/decorators.py:100-101 | "__all__" is replaced by `_meta.fields`, the Field objects, and the name test then never matches | `fields = "__all__"` with a DateTimeField `created_at` | "__all__" includes every concrete field name | not executed | SerializerDecorators.AllFieldsMatchesNothing | SerializerDecorators.CorrectedAllIncludesConcreteFields |
| django_utz/serializers/mixins.py:137 | `f in Meta.fields` is a substring test on "__all__", and `Meta.exclude` is read when it is absent | the documented serializer: `fields = "__all__"`, no `exclude`, `datetime_fields = ["created_at"]` | "__all__" selects every datetime field | not executed | SerializerMixins.DocumentedSerializerFails | SerializerMixins.CorrectedAllFieldsSelectsEvery |
| django_utz_mixins/serializers.py:87 | the per-field builder is called in a way that raises for every listed field, so no field is ever added | any listed DateTimeField | add UTZDateTimeField or UTZTimeField by the field's kind | not executed | UtzSerializerMixins.AsWrittenNeverAdds | UtzSerializerMixins.CorrectedAddsByKind |
| django_utz/models/signals.py:24-29 | the post_save receiver is a local function connected by weak reference, so it is collected when the pre_save handler returns | a saved user whose timezone changes from "UTC" to "Africa/Lagos" | keep the receiver until the next post_save of the user model | not executed | ModelSignals.LocalReceiverLosesChange | ModelSignals.KeptReceiverFiresIffUpdated |
| django_utz/models/mixins.py:188 | each instance's constructor sets the properties on `self.__class__`, closing over that instance's user | two instances of one model related to different users, the second built after the first | each instance shows its datetimes in its own user's timezone | not executed | GeneratedAttrs.LaterInstanceOverwritesProperties | GeneratedAttrs.EachInstanceKeepsItsUser |
