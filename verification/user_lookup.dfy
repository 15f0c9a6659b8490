/** `FunctionAttribute`, `find_user_field` and `get_user`
    (django_utz/decorators/models/utils.py): which user's timezone a model instance
    is shown in. */
module UserLookup {
  import opened Common
  import opened Strings
  import opened Schema
  import opened Traversal
  import opened ProjectUser
  import opened RelationPaths

  /** A descriptor that returns `func(obj)` on attribute access; `name` is set when the
      descriptor is bound to a class attribute. */
  datatype FunctionAttribute = FunctionAttribute(func: string, name: Option<string>)

  /** `FunctionAttribute(func)`: only callables are accepted. */
  function NewFunctionAttribute(func: Value): (r: Result<FunctionAttribute>)
    ensures r.Ok? <==> func.VFunc?
    ensures r.Ok? ==> r.value.func == func.name && r.value.name.None?
    ensures r.Err? ==> r.error == TypeError
  {
    if func.VFunc? then Ok(FunctionAttribute(func.name, None)) else Err(TypeError)
  }

  /** `__set_name__`: the attribute name must be a str. */
  function SetName(fa: FunctionAttribute, name: Value): (r: Result<FunctionAttribute>)
    ensures r.Ok? <==> name.VStr?
    ensures r.Ok? ==> r.value.func == fa.func && r.value.name == Some(name.s)
    ensures r.Err? ==> r.error == TypeError
  {
    if name.VStr? then Ok(fa.(name := Some(name.s))) else Err(TypeError)
  }

  /** `__get__`: the wrapped function applied to the instance; `call` interprets
      function names. */
  function GetFunctionAttribute(fa: FunctionAttribute, obj: Value, call: (string, Value) -> Value): Value
  {
    call(fa.func, obj)
  }

  /** Whatever name the descriptor is bound under, access calls the function it was
      built from on the instance. */
  lemma FunctionAttributeCallsItsFunction(f: Value, name: Value, obj: Value, call: (string, Value) -> Value)
    requires f.VFunc? && name.VStr?
    ensures NewFunctionAttribute(f).Ok? && SetName(NewFunctionAttribute(f).value, name).Ok?
    ensures GetFunctionAttribute(SetName(NewFunctionAttribute(f).value, name).value, obj, call) == call(f.name, obj)
  {
  }

  /** `find_user_field`'s result as Python sees it: the dot-joined path, None, or the
      exception. */
  function AsFieldPath(d: Discovery): Result<Option<string>>
  {
    match d
    case Found(q) => Ok(Some(Join(q, '.')))
    case NotFound => Ok(None)
    case Raised(e) => Err(e)
  }

  /** `find_user_field(model)` with `fuel` frames of stack left. */
  method FindUserField(schema: Schema, authUserModel: string, model: string, fuel: nat)
    returns (r: Result<Option<string>>)
    requires Closed(schema) && model in schema
    ensures r == AsFieldPath(Discover(DecoratorPolicy(schema, authUserModel), schema, model, [], fuel))
  {
    var d := FindPath(DecoratorPolicy(schema, authUserModel), schema, model, fuel);
    r := AsFieldPath(d);
  }

  /** Field names are Python identifiers: never empty, never containing a dot. */
  predicate IdentifierNames(schema: Schema)
  {
    forall m {:trigger schema[m]} :: m in schema ==>
      forall f :: f in schema[m].fields ==> f.name != "" && '.' !in f.name
  }

  /** The segments of a chain are field names, hence non-empty and dot-free. */
  lemma {:induction false} ChainSegments(p: Policy, schema: Schema, m: string, q: seq<string>)
    requires Closed(schema) && IdentifierNames(schema) && m in schema && LeadsToUser(p, schema, m, q)
    ensures forall i :: 0 <= i < |q| ==> q[i] != "" && '.' !in q[i]
    decreases |q|
  {
    var f := Step(p, schema, m).value;
    ConcreteFieldsMembers(schema[m].fields);
    assert f in schema[m].fields;
    if |q| > 1 {
      ChainSegments(p, schema, f.target.value, q[1..]);
      assert forall i :: 1 <= i < |q| ==> q[i] == q[1..][i - 1];
    }
  }

  /** A path returned by `find_user_field` is the dot-join of a chain of foreign-key or
      one-to-one fields whose last one targets the user model; splitting it on dots
      gives the field names back. */
  lemma FoundFieldPath(schema: Schema, authUserModel: string, model: string, fuel: nat)
    requires Closed(schema) && IdentifierNames(schema) && model in schema
    requires Discover(DecoratorPolicy(schema, authUserModel), schema, model, [], fuel).Found?
    ensures var q := Discover(DecoratorPolicy(schema, authUserModel), schema, model, [], fuel).path;
            LeadsToUser(DecoratorPolicy(schema, authUserModel), schema, model, q) &&
            Split(Join(q, '.'), '.') == q
  {
    var p := DecoratorPolicy(schema, authUserModel);
    var q := Discover(p, schema, model, [], fuel).path;
    FoundLeadsToUser(p, schema, model, [], fuel);
    assert q[0..] == q;
    ChainSegments(p, schema, model, q);
    SplitJoin(q, '.');
  }

  /** `obj` is a model instance whose class is in the schema. */
  predicate IsInstance(schema: Schema, heap: Heap, obj: Value)
  {
    obj.VRef? && obj.id in heap && heap[obj.id].cls in schema
  }

  function ClassOf(schema: Schema, heap: Heap, obj: Value): ModelClass
    requires IsInstance(schema, heap, obj)
  {
    schema[heap[obj.id].cls]
  }

  /** The check that ends `get_user`: the user's class has a `UTZMeta` with a truthy
      `_decorated`. A value that is not a model instance has no `UTZMeta`. */
  predicate UserModelIsDecorated(schema: Schema, heap: Heap, user: Value)
  {
    IsInstance(schema, heap, user) && MetaIsDecorated(ClassOf(schema, heap, user).meta)
  }

  /** `get_attr_by_traversal(obj, related_user)`: a value without `.split` raises
      AttributeError inside the `try`, which yields the default None. */
  function TraverseRelated(heap: Heap, obj: Value, related: Value): (r: Value)
    ensures related.VStr? ==> r == Traverse(heap, obj, related.s, VNone)
    ensures !related.VStr? ==> r == VNone
  {
    if related.VStr? then Traverse(heap, obj, related.s, VNone) else VNone
  }

  const USE_RELATED_USER_TIMEZONE := "use_related_user_timezone"
  const RELATED_USER := "related_user"

  /** The user `get_user` picks, before its final check. `requestUser` is what
      `get_request_user()` returns; `fuel` bounds the relation search. */
  function PickUser(schema: Schema, heap: Heap, authUserModel: string, obj: Value, requestUser: Value, fuel: nat)
    : Result<Value>
    requires Closed(schema) && IsInstance(schema, heap, obj)
  {
    var c := ClassOf(schema, heap, obj);
    if IsUserModel(authUserModel, c) then Ok(obj)
    else if !(c.meta.MetaClass? && USE_RELATED_USER_TIMEZONE in c.meta.configs) then Err(AttributeError)
    else if !Truthy(c.meta.configs[USE_RELATED_USER_TIMEZONE]) then Ok(requestUser)
    else
      var configured := MetaGet(c.meta, RELATED_USER, VNone);
      var related :=
        if Truthy(configured) then Ok(configured)
        else match AsFieldPath(Discover(DecoratorPolicy(schema, authUserModel), schema, heap[obj.id].cls, [], fuel))
          case Ok(Some(s)) => Ok(VStr(s))
          case Ok(None) => Ok(VNone)
          case Err(e) => Err(e);
      match related
      case Err(e) => Err(e)
      case Ok(rel) =>
        if !Truthy(rel) then
          if Truthy(MetaGet(c.meta, RELATED_USER, VNone)) then Err(ModelConfigurationError) else Err(ModelError)
        else Ok(TraverseRelated(heap, obj, rel))
  }

  /** `get_user(model_obj)`. */
  function GetUser(schema: Schema, heap: Heap, authUserModel: string, obj: Value, requestUser: Value, fuel: nat)
    : (r: Result<Value>)
    requires Closed(schema) && IsInstance(schema, heap, obj)
    ensures r.Ok? && Truthy(r.value) ==> UserModelIsDecorated(schema, heap, r.value)
    ensures r.Ok? ==> PickUser(schema, heap, authUserModel, obj, requestUser, fuel) == r
    ensures r.Err? ==> r.error in {AttributeError, ModelError, IndexError, RecursionError}
    ensures var u := PickUser(schema, heap, authUserModel, obj, requestUser, fuel);
            u.Err? ==> r == u
    ensures var u := PickUser(schema, heap, authUserModel, obj, requestUser, fuel);
            u.Ok? ==> (r.Ok? <==> !Truthy(u.value) || UserModelIsDecorated(schema, heap, u.value))
    ensures var u := PickUser(schema, heap, authUserModel, obj, requestUser, fuel);
            u.Ok? && r.Err? ==> r.error == ModelError
  {
    match PickUser(schema, heap, authUserModel, obj, requestUser, fuel)
    case Err(e) => Err(e)
    case Ok(user) =>
      if Truthy(user) && !UserModelIsDecorated(schema, heap, user) then Err(ModelError)
      else Ok(user)
  }

  /** An instance of the user model resolves to itself. */
  lemma UserModelResolvesToItself(schema: Schema, heap: Heap, authUserModel: string, obj: Value, requestUser: Value, fuel: nat)
    requires Closed(schema) && IsInstance(schema, heap, obj)
    requires IsUserModel(authUserModel, ClassOf(schema, heap, obj))
    ensures GetUser(schema, heap, authUserModel, obj, requestUser, fuel) ==
            if UserModelIsDecorated(schema, heap, obj) then Ok(obj) else Err(ModelError)
  {
  }

  /** With `use_related_user_timezone` false the request user is the answer. */
  lemma RequestUserWhenNotRelated(schema: Schema, heap: Heap, authUserModel: string, obj: Value, requestUser: Value, fuel: nat)
    requires Closed(schema) && IsInstance(schema, heap, obj)
    requires !IsUserModel(authUserModel, ClassOf(schema, heap, obj))
    requires MetaGet(ClassOf(schema, heap, obj).meta, USE_RELATED_USER_TIMEZONE, VNone) == VBool(false)
    requires ClassOf(schema, heap, obj).meta.MetaClass?
    requires USE_RELATED_USER_TIMEZONE in ClassOf(schema, heap, obj).meta.configs
    ensures GetUser(schema, heap, authUserModel, obj, requestUser, fuel) ==
            if Truthy(requestUser) && !UserModelIsDecorated(schema, heap, requestUser) then Err(ModelError)
            else Ok(requestUser)
  {
  }

  /** A configured `related_user` path is followed from the instance without searching
      for relations. */
  lemma ConfiguredRelatedUser(schema: Schema, heap: Heap, authUserModel: string, obj: Value, requestUser: Value, fuel: nat, path: string)
    requires Closed(schema) && IsInstance(schema, heap, obj)
    requires !IsUserModel(authUserModel, ClassOf(schema, heap, obj))
    requires var meta := ClassOf(schema, heap, obj).meta;
             meta.MetaClass? && USE_RELATED_USER_TIMEZONE in meta.configs &&
             Truthy(meta.configs[USE_RELATED_USER_TIMEZONE]) &&
             RELATED_USER in meta.configs && meta.configs[RELATED_USER] == VStr(path)
    requires path != ""
    ensures PickUser(schema, heap, authUserModel, obj, requestUser, fuel) == Ok(Traverse(heap, obj, path, VNone))
  {
  }

  /** Without a configured path the discovered one is followed; its segments are the
      field names walked. */
  lemma DiscoveredRelatedUser(schema: Schema, heap: Heap, authUserModel: string, obj: Value, requestUser: Value, fuel: nat)
    requires Closed(schema) && IdentifierNames(schema) && IsInstance(schema, heap, obj)
    requires !IsUserModel(authUserModel, ClassOf(schema, heap, obj))
    requires var meta := ClassOf(schema, heap, obj).meta;
             meta.MetaClass? && USE_RELATED_USER_TIMEZONE in meta.configs &&
             Truthy(meta.configs[USE_RELATED_USER_TIMEZONE]) &&
             !Truthy(MetaGet(meta, RELATED_USER, VNone))
    requires Discover(DecoratorPolicy(schema, authUserModel), schema, heap[obj.id].cls, [], fuel).Found?
    ensures var q := Discover(DecoratorPolicy(schema, authUserModel), schema, heap[obj.id].cls, [], fuel).path;
            PickUser(schema, heap, authUserModel, obj, requestUser, fuel) == Ok(OrDefault(Follow(heap, obj, q), VNone))
  {
    var p := DecoratorPolicy(schema, authUserModel);
    var q := Discover(p, schema, heap[obj.id].cls, [], fuel).path;
    FoundLeadsToUser(p, schema, heap[obj.id].cls, [], fuel);
    assert q[0..] == q;
    ChainSegments(p, schema, heap[obj.id].cls, q);
    assert Join(q, '.') != "" by {
      if |q| > 1 {
        assert Join(q, '.') == q[0] + ['.'] + Join(q[1..], '.');
      }
    }
    TraverseJoined(heap, obj, q, VNone);
  }

  /** When neither a configured nor a discovered path exists, `get_user` raises
      ModelError. */
  lemma NoRelatedUserIsModelError(schema: Schema, heap: Heap, authUserModel: string, obj: Value, requestUser: Value, fuel: nat)
    requires Closed(schema) && IsInstance(schema, heap, obj)
    requires !IsUserModel(authUserModel, ClassOf(schema, heap, obj))
    requires var meta := ClassOf(schema, heap, obj).meta;
             meta.MetaClass? && USE_RELATED_USER_TIMEZONE in meta.configs &&
             Truthy(meta.configs[USE_RELATED_USER_TIMEZONE]) &&
             !Truthy(MetaGet(meta, RELATED_USER, VNone))
    requires Discover(DecoratorPolicy(schema, authUserModel), schema, heap[obj.id].cls, [], fuel) == NotFound
    ensures GetUser(schema, heap, authUserModel, obj, requestUser, fuel) == Err(ModelError)
  {
  }

  /** The ModelConfigurationError branch of `get_user` cannot be reached: a truthy
      `related_user` configuration already makes the chosen path truthy. */
  lemma NeverModelConfigurationError(schema: Schema, heap: Heap, authUserModel: string, obj: Value, requestUser: Value, fuel: nat)
    requires Closed(schema) && IsInstance(schema, heap, obj)
    ensures PickUser(schema, heap, authUserModel, obj, requestUser, fuel) != Err(ModelConfigurationError)
  {
    var c := ClassOf(schema, heap, obj);
    var configured := MetaGet(c.meta, RELATED_USER, VNone);
    if !IsUserModel(authUserModel, c) && c.meta.MetaClass? && USE_RELATED_USER_TIMEZONE in c.meta.configs
       && Truthy(c.meta.configs[USE_RELATED_USER_TIMEZONE]) && Truthy(configured) {
      assert PickUser(schema, heap, authUserModel, obj, requestUser, fuel) == Ok(TraverseRelated(heap, obj, configured));
    }
  }
}
