/** Model instances as a heap of attribute maps, and `get_attr_by_traversal`, which
    the library defines twice with the same text (django_utz/decorators/utils.py and
    django_utz/utils.py). */
module Traversal {
  import opened Common
  import opened Strings

  /** A model instance: the qualified name of its class and its attributes (a
      relation attribute holds a reference to the related instance, or None). */
  datatype Instance = Instance(cls: string, attrs: map<string, Value>)

  type Heap = map<nat, Instance>

  /** `getattr(v, name)`; None stands for the AttributeError raised when the
      attribute is missing. In this model only instances carry attributes, so the
      lookup fails on None and on every other plain value. */
  function GetAttr(heap: Heap, v: Value, name: string): (r: Option<Value>)
    ensures r.Some? ==> v.VRef? && v.id in heap && name in heap[v.id].attrs
    ensures r.Some? ==> r.value == heap[v.id].attrs[name]
    ensures v.VRef? && v.id in heap && name in heap[v.id].attrs ==> r.Some?
  {
    if v.VRef? && v.id in heap && name in heap[v.id].attrs then Some(heap[v.id].attrs[name]) else None
  }

  /** Follows `names` one attribute at a time; None when some step is missing. */
  function Follow(heap: Heap, v: Value, names: seq<string>): Option<Value>
    decreases |names|
  {
    if names == [] then Some(v)
    else
      match GetAttr(heap, v, names[0])
      case None => None
      case Some(w) => Follow(heap, w, names[1..])
  }

  function OrDefault(o: Option<Value>, default: Value): Value
  {
    if o.Some? then o.value else default
  }

  /** What `get_attr_by_traversal(obj, path, default)` returns. */
  function Traverse(heap: Heap, obj: Value, path: string, default: Value): Value
  {
    OrDefault(Follow(heap, obj, Split(path, '.')), default)
  }

  /** `get_attr_by_traversal`: splits the path on "." and reassigns `obj` once per
      segment; a missing attribute at any step yields `default` instead of raising. */
  method GetAttrByTraversal(heap: Heap, obj: Value, path: string, default: Value) returns (r: Value)
    ensures r == OrDefault(Follow(heap, obj, Split(path, '.')), default)
  {
    var attrs := Split(path, '.');
    var cur := obj;
    var i := 0;
    while i < |attrs|
      invariant 0 <= i <= |attrs|
      invariant Follow(heap, obj, attrs) == Follow(heap, cur, attrs[i..])
    {
      assert attrs[i..][0] == attrs[i] && attrs[i..][1..] == attrs[i + 1..];
      var next := GetAttr(heap, cur, attrs[i]);
      if next.None? {
        return default;
      }
      cur := next.value;
      i := i + 1;
    }
    r := cur;
  }

  /** Following a concatenation is following the first part, then the second. */
  lemma {:induction false} FollowAppend(heap: Heap, v: Value, a: seq<string>, b: seq<string>)
    ensures Follow(heap, v, a + b) ==
            (match Follow(heap, v, a) case None => None case Some(w) => Follow(heap, w, b))
    decreases |a|
  {
    if a == [] {
      assert a + b == b;
    } else {
      assert (a + b)[0] == a[0] && (a + b)[1..] == a[1..] + b;
      match GetAttr(heap, v, a[0])
      case None =>
      case Some(w) => FollowAppend(heap, w, a[1..], b);
    }
  }

  /** Stepping through a None intermediate yields the default; in this model so does
      stepping through any other plain value. */
  lemma TraverseThroughNone(heap: Heap, v: Value, names: seq<string>, default: Value)
    requires !v.VRef? && names != []
    ensures Follow(heap, v, names) == None
    ensures OrDefault(Follow(heap, v, names), default) == default
  {
  }

  /** A path without dots is a plain attribute lookup with a default. */
  lemma SingleSegmentIsGetAttr(heap: Heap, obj: Value, name: string, default: Value)
    requires '.' !in name
    ensures Traverse(heap, obj, name, default) == OrDefault(GetAttr(heap, obj, name), default)
  {
    SplitOfFree(name, '.');
    assert Split(name, '.') == [name];
    assert [name][0] == name && [name][1..] == [];
    match GetAttr(heap, obj, name)
    case None =>
    case Some(w) => assert Follow(heap, w, []) == Some(w);
  }

  /** Traversing the dot-join of dot-free names follows exactly those names. */
  lemma TraverseJoined(heap: Heap, obj: Value, names: seq<string>, default: Value)
    requires |names| >= 1
    requires forall i :: 0 <= i < |names| ==> '.' !in names[i]
    ensures Traverse(heap, obj, Join(names, '.'), default) == OrDefault(Follow(heap, obj, names), default)
  {
    SplitJoin(names, '.');
  }
}
