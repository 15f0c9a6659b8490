/** The search for the field path that leads from a model to the user model, shared by
    `find_user_field` (django_utz/decorators/models/utils.py) and
    `find_user_related_model_field` (django_utz/models/mixins.py). Both scan
    `_meta.fields` in order, commit to the FIRST relational field, append its name to a
    shared list and either stop at the user model or recurse into the related model;
    a model without a relational field pops the list and yields None. */
module RelationPaths {
  import opened Common
  import opened Schema
  import opened ProjectUser

  /** What a variant counts as a relation (any related model, or only foreign keys and
      one-to-one fields) and which models it takes for the user model. */
  datatype Policy = Policy(keysOnly: bool, users: set<string>)

  /** `find_user_field`: foreign keys and one-to-one fields; `is_user_model`. */
  function DecoratorPolicy(schema: Schema, authUserModel: string): (p: Policy)
    ensures p.keysOnly
    ensures forall t :: t in p.users <==> t in schema && IsUserModel(authUserModel, schema[t])
  {
    Policy(true, set t | t in schema && IsUserModel(authUserModel, schema[t]))
  }

  /** `find_user_related_model_field`: any related model; a subclass of the auth user
      classes. */
  function MixinPolicy(schema: Schema): (p: Policy)
    ensures !p.keysOnly
    ensures forall t :: t in p.users <==> t in schema && IsAuthUserClass(schema[t])
  {
    Policy(false, set t | t in schema && IsAuthUserClass(schema[t]))
  }

  predicate IsRelational(p: Policy, f: Field)
  {
    f.target.Some? && (p.keysOnly ==> f.kind.ForeignKey? || f.kind.OneToOne?)
  }

  /** Every related model named by a field is a model of the schema. */
  predicate Closed(schema: Schema)
  {
    forall m {:trigger schema[m]} :: m in schema ==> RelatesWithin(schema, schema[m].fields)
  }

  predicate RelatesWithin(schema: Schema, fs: seq<Field>)
  {
    forall i :: 0 <= i < |fs| && fs[i].target.Some? ==> fs[i].target.value in schema
  }

  /** Position of the first relational field. */
  function FirstRelational(p: Policy, fs: seq<Field>): (r: Option<nat>)
    ensures r.Some? ==> r.value < |fs| && IsRelational(p, fs[r.value])
    ensures r.Some? ==> forall j :: 0 <= j < r.value ==> !IsRelational(p, fs[j])
    ensures r.None? ==> forall j :: 0 <= j < |fs| ==> !IsRelational(p, fs[j])
  {
    if fs == [] then None
    else if IsRelational(p, fs[0]) then Some(0)
    else match FirstRelational(p, fs[1..])
      case None => None
      case Some(i) => Some(i + 1)
  }

  /** The field the search commits to in model `m`, if any. */
  function Step(p: Policy, schema: Schema, m: string): (r: Option<Field>)
    requires Closed(schema) && m in schema
    ensures r.Some? ==> IsRelational(p, r.value) && r.value.target.value in schema
    ensures r.Some? ==> r.value in ConcreteFields(schema[m].fields)
  {
    ConcreteFieldsMembers(schema[m].fields);
    var fs := ConcreteFields(schema[m].fields);
    match FirstRelational(p, fs)
    case None => None
    case Some(i) => Some(fs[i])
  }

  /** Outcome of the search: a path, None, or an exception. */
  datatype Discovery = Found(path: seq<string>) | NotFound | Raised(error: Error)

  /** The search as written: `paths` is the shared list, `fuel` the stack frames left
      before Python raises RecursionError. Popping an empty list raises IndexError. */
  function Discover(p: Policy, schema: Schema, m: string, paths: seq<string>, fuel: nat): (r: Discovery)
    requires Closed(schema) && m in schema
    ensures r.Raised? ==> r.error == IndexError || r.error == RecursionError
    decreases fuel
  {
    if fuel == 0 then Raised(RecursionError)
    else match Step(p, schema, m)
      case None => if paths == [] then Raised(IndexError) else NotFound
      case Some(f) =>
        var next := paths + [f.name];
        if f.target.value in p.users then Found(next)
        else Discover(p, schema, f.target.value, next, fuel - 1)
  }

  /** The `for field in model._meta.fields` scan: the position of the first relational
      field, or the length when there is none. */
  method ScanFields(p: Policy, fields: seq<Field>) returns (j: nat)
    ensures j <= |fields|
    ensures j == |fields| <==> FirstRelational(p, fields).None?
    ensures j < |fields| ==> FirstRelational(p, fields) == Some(j)
  {
    j := 0;
    while j < |fields| && !IsRelational(p, fields[j])
      invariant j <= |fields|
      invariant forall k :: 0 <= k < j ==> !IsRelational(p, fields[k])
    {
      j := j + 1;
    }
  }

  /** One frame of the search. */
  lemma DiscoverOneFrame(p: Policy, schema: Schema, m: string, paths: seq<string>, fuel: nat)
    requires Closed(schema) && m in schema && fuel > 0
    ensures Step(p, schema, m).None? ==>
              Discover(p, schema, m, paths, fuel) == if paths == [] then Raised(IndexError) else NotFound
    ensures Step(p, schema, m).Some? ==>
              var f := Step(p, schema, m).value;
              Discover(p, schema, m, paths, fuel) ==
                if f.target.value in p.users then Found(paths + [f.name])
                else Discover(p, schema, f.target.value, paths + [f.name], fuel - 1)
  {
  }

  /** What one call of the nested search function does: return a result, or recurse
      into a related model with the extended list. */
  datatype FrameOutcome = Return(result: Discovery) | Recurse(model: string, paths: seq<string>)

  /** What the search still to run from a frame returns. */
  ghost function Remaining(p: Policy, schema: Schema, model: string, paths: seq<string>, frames: nat): Discovery
    requires Closed(schema) && model in schema
  {
    Discover(p, schema, model, paths, frames)
  }

  /** The body of the nested search function, for one model. */
  method SearchFrame(p: Policy, schema: Schema, model: string, fieldPaths: seq<string>, frames: nat,
                     ghost goal: Discovery) returns (o: FrameOutcome)
    requires Closed(schema) && model in schema && frames > 0
    requires goal == Remaining(p, schema, model, fieldPaths, frames)
    ensures o.Return? ==> o.result == goal
    ensures o.Recurse? ==> o.model in schema && goal == Remaining(p, schema, o.model, o.paths, frames - 1)
  {
    var fields := ConcreteFields(schema[model].fields);
    var j := ScanFields(p, fields);
    DiscoverOneFrame(p, schema, model, fieldPaths, frames);
    if j == |fields| {
      // the pop fails on an empty list; otherwise the list is never read again
      if fieldPaths == [] {
        return Return(Raised(IndexError));
      }
      return Return(NotFound);
    }
    var field := fields[j];
    assert Step(p, schema, model) == Some(field);
    var paths := fieldPaths + [field.name];
    if field.target.value in p.users {
      return Return(Found(paths));
    }
    return Recurse(field.target.value, paths);
  }

  /** The search: frames run one after another over the shared list until one returns
      or the stack is exhausted. */
  method FindPath(p: Policy, schema: Schema, root: string, fuel: nat) returns (r: Discovery)
    requires Closed(schema) && root in schema
    ensures r == Discover(p, schema, root, [], fuel)
  {
    ghost var goal := Discover(p, schema, root, [], fuel);
    var fieldPaths: seq<string> := [];
    var model := root;
    var frames := fuel;
    while frames > 0
      invariant model in schema
      invariant goal == Remaining(p, schema, model, fieldPaths, frames)
    {
      var o := SearchFrame(p, schema, model, fieldPaths, frames, goal);
      if o.Return? {
        return o.result;
      }
      model, fieldPaths, frames := o.model, o.paths, frames - 1;
    }
    return Raised(RecursionError);
  }

  /** `q` is the chain of first relational fields from `m` that ends at the user model. */
  predicate LeadsToUser(p: Policy, schema: Schema, m: string, q: seq<string>)
    requires Closed(schema) && m in schema
    decreases |q|
  {
    q != [] &&
    match Step(p, schema, m)
    case None => false
    case Some(f) =>
      f.name == q[0] &&
      if |q| == 1 then f.target.value in p.users
      else f.target.value !in p.users && LeadsToUser(p, schema, f.target.value, q[1..])
  }

  /** A found path is the shared list extended by a chain that leads to the user model,
      one frame per segment. */
  lemma {:induction false} FoundLeadsToUser(p: Policy, schema: Schema, m: string, paths: seq<string>, fuel: nat)
    requires Closed(schema) && m in schema
    requires Discover(p, schema, m, paths, fuel).Found?
    ensures var r := Discover(p, schema, m, paths, fuel).path;
            |paths| < |r| <= |paths| + fuel && r[..|paths|] == paths && LeadsToUser(p, schema, m, r[|paths|..])
    decreases fuel
  {
    var r := Discover(p, schema, m, paths, fuel).path;
    var f := Step(p, schema, m).value;
    var next := paths + [f.name];
    if f.target.value !in p.users {
      FoundLeadsToUser(p, schema, f.target.value, next, fuel - 1);
      assert r[..|next|] == next;
      assert r[|paths|..][1..] == r[|next|..];
    }
  }

  /** Conversely, with enough frames a chain to the user model is what the search finds. */
  lemma {:induction false} LeadsToUserIsFound(p: Policy, schema: Schema, m: string, q: seq<string>, paths: seq<string>, fuel: nat)
    requires Closed(schema) && m in schema
    requires LeadsToUser(p, schema, m, q) && |q| <= fuel
    ensures Discover(p, schema, m, paths, fuel) == Found(paths + q)
    decreases |q|
  {
    var f := Step(p, schema, m).value;
    if |q| > 1 {
      LeadsToUserIsFound(p, schema, f.target.value, q[1..], paths + [f.name], fuel - 1);
      assert paths + [f.name] + q[1..] == paths + q;
    }
  }

  /** Once the shared list is non-empty the search never raises IndexError. */
  lemma {:induction false} NestedNeverIndexError(p: Policy, schema: Schema, m: string, paths: seq<string>, fuel: nat)
    requires Closed(schema) && m in schema && paths != []
    ensures Discover(p, schema, m, paths, fuel) != Raised(IndexError)
    decreases fuel
  {
    if fuel > 0 {
      match Step(p, schema, m)
      case None =>
      case Some(f) =>
        if f.target.value !in p.users {
          NestedNeverIndexError(p, schema, f.target.value, paths + [f.name], fuel - 1);
        }
    }
  }

  /** The search started on a model raises IndexError exactly when that model has no
      relational field (the pop on the empty list). */
  lemma RootIndexError(p: Policy, schema: Schema, m: string, fuel: nat)
    requires Closed(schema) && m in schema && fuel > 0
    ensures Discover(p, schema, m, [], fuel) == Raised(IndexError) <==> Step(p, schema, m).None?
  {
    match Step(p, schema, m)
    case None =>
    case Some(f) =>
      if f.target.value !in p.users {
        assert [] + [f.name] == [f.name];
        NestedNeverIndexError(p, schema, f.target.value, [f.name], fuel - 1);
      }
  }

  /** The related model the search moves on to from `m`, when it does not stop there. */
  function Next(p: Policy, schema: Schema, m: string): (r: Option<string>)
    requires Closed(schema) && m in schema
    ensures r.Some? ==> r.value in schema
  {
    match Step(p, schema, m)
    case None => None
    case Some(f) => if f.target.value in p.users then None else Some(f.target.value)
  }

  /** A set of models that the search can always move on from, staying inside the set
      (a cycle of relations that never reaches the user model). */
  predicate Trap(p: Policy, schema: Schema, c: set<string>)
    requires Closed(schema)
  {
    (forall x :: x in c ==> x in schema) &&
    forall x {:trigger Next(p, schema, x)} :: x in c && x in schema ==>
      Next(p, schema, x).Some? && Next(p, schema, x).value in c
  }

  /** Started inside a trap, the search exhausts every stack: RecursionError whatever
      the recursion limit. */
  lemma {:induction false} TrapRaisesRecursionError(p: Policy, schema: Schema, c: set<string>, m: string, paths: seq<string>, fuel: nat)
    requires Closed(schema) && Trap(p, schema, c) && m in c
    ensures m in schema && Discover(p, schema, m, paths, fuel) == Raised(RecursionError)
    decreases fuel
  {
    if fuel > 0 {
      assert Next(p, schema, m).Some?;
      var f := Step(p, schema, m).value;
      TrapRaisesRecursionError(p, schema, c, f.target.value, paths + [f.name], fuel - 1);
    }
  }

  /** A model whose only relation (a foreign key to itself) never reaches the user model
      raises RecursionError. */
  lemma SelfReferenceRaisesRecursionError(p: Policy, fuel: nat)
    requires "shop.models.Category" !in p.users
    ensures var schema := map["shop.models.Category" := CategoryModel()];
            Closed(schema) && Discover(p, schema, "shop.models.Category", [], fuel) == Raised(RecursionError)
  {
    var schema := map["shop.models.Category" := CategoryModel()];
    ConcreteFieldsMembers(CategoryModel().fields);
    assert Next(p, schema, "shop.models.Category") == Some("shop.models.Category");
    TrapRaisesRecursionError(p, schema, {"shop.models.Category"}, "shop.models.Category", [], fuel);
  }

  function CategoryModel(): ModelClass
  {
    ModelClass("shop.models", "Category", {MODEL_BASE}, [MODEL_BASE],
               [Field("name", Plain, None, []), Field("parent", ForeignKey, Some("shop.models.Category"), [])],
               NoMeta, map[])
  }

  /** Only the first relational field of each model is followed: a book whose first
      foreign key leads to a publisher without relations gives None even though its
      second foreign key is to the user model. */
  lemma LaterUserRelationIsMissed(p: Policy, fuel: nat)
    requires fuel >= 2
    requires "app.models.User" in p.users
    requires "shop.models.Book" !in p.users && "shop.models.Publisher" !in p.users
    ensures var schema := BookSchema();
            Closed(schema) && Discover(p, schema, "shop.models.Book", [], fuel) == NotFound
    ensures var schema := BookSchema();
            IsRelational(p, schema["shop.models.Book"].fields[1]) &&
            schema["shop.models.Book"].fields[1].target == Some("app.models.User")
  {
    var schema := BookSchema();
    assert Step(p, schema, "shop.models.Book") == Some(schema["shop.models.Book"].fields[0]);
    assert Step(p, schema, "shop.models.Publisher") == None;
  }

  function BookSchema(): Schema
  {
    map[
      "shop.models.Book" :=
        ModelClass("shop.models", "Book", {MODEL_BASE}, [MODEL_BASE],
                   [Field("publisher", ForeignKey, Some("shop.models.Publisher"), []),
                    Field("author", ForeignKey, Some("app.models.User"), [])],
                   NoMeta, map[]),
      "shop.models.Publisher" :=
        ModelClass("shop.models", "Publisher", {MODEL_BASE}, [MODEL_BASE],
                   [Field("name", Plain, None, [])], NoMeta, map[]),
      "app.models.User" :=
        ModelClass("app.models", "User", {MODEL_BASE, ABSTRACT_USER}, [ABSTRACT_USER],
                   [Field("username", Plain, None, [])], NoMeta, map[])
    ]
  }

  /** The search as evidently intended: same first-relational-field walk, but a model
      without relations or a model already on the walk yields None instead of an
      exception. `visited` holds the models the walk has passed through. */
  function FindUserFieldCorrected(p: Policy, schema: Schema, m: string, visited: set<string>): (r: Option<seq<string>>)
    requires Closed(schema) && m in schema && visited <= schema.Keys
    ensures r.Some? ==> LeadsToUser(p, schema, m, r.value)
    decreases schema.Keys - visited
  {
    if m in visited then None
    else match Step(p, schema, m)
      case None => None
      case Some(f) =>
        if f.target.value in p.users then Some([f.name])
        else match FindUserFieldCorrected(p, schema, f.target.value, visited + {m})
          case None => None
          case Some(q) =>
            assert ([f.name] + q)[1..] == q;
            Some([f.name] + q)
  }

  /** The models a chain passes through, starting with `m`. */
  function ChainModels(p: Policy, schema: Schema, m: string, q: seq<string>): (r: seq<string>)
    requires Closed(schema) && m in schema && LeadsToUser(p, schema, m, q)
    ensures |r| == |q| && r[0] == m
    ensures forall i :: 0 <= i < |r| ==> r[i] in schema
    decreases |q|
  {
    if |q| == 1 then [m]
    else [m] + ChainModels(p, schema, Step(p, schema, m).value.target.value, q[1..])
  }

  /** Every suffix of a chain to the user model is itself such a chain. */
  lemma {:induction false} ChainSuffix(p: Policy, schema: Schema, m: string, q: seq<string>, j: nat)
    requires Closed(schema) && m in schema && LeadsToUser(p, schema, m, q) && j < |q|
    ensures LeadsToUser(p, schema, ChainModels(p, schema, m, q)[j], q[j..])
    decreases j
  {
    if j > 0 {
      var next := Step(p, schema, m).value.target.value;
      ChainSuffix(p, schema, next, q[1..], j - 1);
      assert q[1..][j - 1..] == q[j..];
    }
  }

  /** From a given model there is at most one chain to the user model. */
  lemma {:induction false} ChainUnique(p: Policy, schema: Schema, m: string, q1: seq<string>, q2: seq<string>)
    requires Closed(schema) && m in schema
    requires LeadsToUser(p, schema, m, q1) && LeadsToUser(p, schema, m, q2)
    ensures q1 == q2
    decreases |q1|
  {
    var f := Step(p, schema, m).value;
    if |q1| > 1 && |q2| > 1 {
      ChainUnique(p, schema, f.target.value, q1[1..], q2[1..]);
      assert q1 == [q1[0]] + q1[1..] && q2 == [q2[0]] + q2[1..];
    }
  }

  /** A chain to the user model never passes through the same model twice. */
  lemma ChainDistinct(p: Policy, schema: Schema, m: string, q: seq<string>, i: nat, j: nat)
    requires Closed(schema) && m in schema && LeadsToUser(p, schema, m, q)
    requires i < j < |q|
    ensures ChainModels(p, schema, m, q)[i] != ChainModels(p, schema, m, q)[j]
  {
    var c := ChainModels(p, schema, m, q);
    if c[i] == c[j] {
      ChainSuffix(p, schema, m, q, i);
      ChainSuffix(p, schema, m, q, j);
      ChainUnique(p, schema, c[i], q[i..], q[j..]);
    }
  }

  /** The corrected search finds a chain whose models it has not yet visited. */
  lemma {:induction false} CorrectedFindsChain(p: Policy, schema: Schema, m: string, q: seq<string>, visited: set<string>)
    requires Closed(schema) && m in schema && visited <= schema.Keys
    requires LeadsToUser(p, schema, m, q)
    requires forall i :: 0 <= i < |q| ==> ChainModels(p, schema, m, q)[i] !in visited
    requires forall i, j :: 0 <= i < j < |q| ==> ChainModels(p, schema, m, q)[i] != ChainModels(p, schema, m, q)[j]
    ensures FindUserFieldCorrected(p, schema, m, visited) == Some(q)
    decreases |q|
  {
    var c := ChainModels(p, schema, m, q);
    assert c[0] == m && c[0] !in visited;
    var f := Step(p, schema, m).value;
    if |q| == 1 {
      assert q == [f.name];
    } else {
      var next := f.target.value;
      var c' := ChainModels(p, schema, next, q[1..]);
      assert c == [m] + c';
      forall i | 0 <= i < |q[1..]| ensures c'[i] !in visited + {m} {
        assert c'[i] == c[i + 1];
      }
      forall i, j | 0 <= i < j < |q[1..]| ensures c'[i] != c'[j] {
        assert c'[i] == c[i + 1] && c'[j] == c[j + 1];
      }
      CorrectedFindsChain(p, schema, next, q[1..], visited + {m});
      assert [f.name] + q[1..] == q;
    }
  }

  /** Whatever chain to the user model exists is what the corrected search returns. */
  lemma CorrectedIsComplete(p: Policy, schema: Schema, m: string, q: seq<string>)
    requires Closed(schema) && m in schema && LeadsToUser(p, schema, m, q)
    ensures FindUserFieldCorrected(p, schema, m, {}) == Some(q)
  {
    forall i, j | 0 <= i < j < |q|
      ensures ChainModels(p, schema, m, q)[i] != ChainModels(p, schema, m, q)[j]
    {
      ChainDistinct(p, schema, m, q, i, j);
    }
    CorrectedFindsChain(p, schema, m, q, {});
  }

  /** Wherever the search as written finds a path, the corrected one finds the same. */
  lemma CorrectedAgreesOnFound(p: Policy, schema: Schema, m: string, fuel: nat)
    requires Closed(schema) && m in schema
    requires Discover(p, schema, m, [], fuel).Found?
    ensures FindUserFieldCorrected(p, schema, m, {}) == Some(Discover(p, schema, m, [], fuel).path)
  {
    var r := Discover(p, schema, m, [], fuel).path;
    FoundLeadsToUser(p, schema, m, [], fuel);
    assert r[0..] == r;
    CorrectedIsComplete(p, schema, m, r);
  }

  /** Where the search as written raises IndexError, the corrected one gives None. */
  lemma CorrectedRootWithoutRelation(p: Policy, schema: Schema, m: string)
    requires Closed(schema) && m in schema && Step(p, schema, m).None?
    ensures Discover(p, schema, m, [], 1) == Raised(IndexError)
    ensures FindUserFieldCorrected(p, schema, m, {}) == None
  {
  }

  /** Where the search as written exhausts the stack, the corrected one gives None. */
  lemma {:induction false} CorrectedTrapIsNone(p: Policy, schema: Schema, c: set<string>, m: string, visited: set<string>)
    requires Closed(schema) && Trap(p, schema, c) && m in c && visited <= schema.Keys
    ensures m in schema && FindUserFieldCorrected(p, schema, m, visited) == None
    decreases schema.Keys - visited
  {
    if m !in visited {
      assert Next(p, schema, m).Some?;
      var f := Step(p, schema, m).value;
      CorrectedTrapIsNone(p, schema, c, f.target.value, visited + {m});
    }
  }
}
