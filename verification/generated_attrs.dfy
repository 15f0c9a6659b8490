/** Class attributes the library installs one per listed field, named
    "<field>_<suffix>": the properties of both mixin generations and the
    `FunctionAttribute`s of the decorators. */
module GeneratedAttrs {
  import opened Common
  import opened Traversal

  /** f"{field}_{suffix}" */
  function AttrName(field: string, suffix: string): (r: string)
    ensures |r| == |field| + 1 + |suffix|
    ensures r[..|field|] == field && r[|field|] == '_' && r[|field| + 1..] == suffix
  {
    field + "_" + suffix
  }

  /** The property a mixin installs for each field once the user is known. */
  function PropertyOf(user: Value): string -> Value
  {
    f => VUtzProperty(f, user)
  }

  /** Under one suffix, distinct fields get distinct attribute names. */
  lemma AttrNameInjective(f1: string, f2: string, suffix: string)
    requires AttrName(f1, suffix) == AttrName(f2, suffix)
    ensures f1 == f2
  {
    var n := AttrName(f1, suffix);
    assert |f1| == |f2|;
    assert f1 == n[..|f1|] == f2;
  }

  /** The class attributes after `setattr(cls, AttrName(f, suffix), val(f))` for each
      `f` of `fields` in order. */
  function Installed(attrs: map<string, Value>, fields: seq<string>, suffix: string, val: string -> Value)
    : (r: map<string, Value>)
    ensures forall f :: f in fields ==> AttrName(f, suffix) in r && r[AttrName(f, suffix)] == val(f)
    ensures forall k :: k in r <==> k in attrs || exists f :: f in fields && k == AttrName(f, suffix)
    ensures forall k :: k in attrs && (forall f :: f in fields ==> k != AttrName(f, suffix)) ==> r[k] == attrs[k]
    decreases |fields|
  {
    if fields == [] then attrs
    else
      var last := fields[|fields| - 1];
      var init := fields[..|fields| - 1];
      var before := Installed(attrs, init, suffix, val);
      assert forall f :: f in fields <==> f in init || f == last;
      forall f | f in init && AttrName(f, suffix) == AttrName(last, suffix)
        ensures val(f) == val(last)
      {
        AttrNameInjective(f, last, suffix);
      }
      before[AttrName(last, suffix) := val(last)]
  }

  /** Installing one more field extends the installation by one attribute. */
  lemma InstalledSnoc(attrs: map<string, Value>, fields: seq<string>, f: string, suffix: string, val: string -> Value)
    ensures Installed(attrs, fields + [f], suffix, val) == Installed(attrs, fields, suffix, val)[AttrName(f, suffix) := val(f)]
  {
    assert (fields + [f])[..|fields|] == fields;
  }

  /** Installing the same fields twice gives the same attributes as installing them
      once: re-running a generator is harmless. */
  lemma InstalledIdempotent(attrs: map<string, Value>, fields: seq<string>, suffix: string, val: string -> Value)
    ensures Installed(Installed(attrs, fields, suffix, val), fields, suffix, val) == Installed(attrs, fields, suffix, val)
  {
    var once := Installed(attrs, fields, suffix, val);
    var twice := Installed(once, fields, suffix, val);
    forall k | k in twice ensures k in once && twice[k] == once[k] {
      if exists f :: f in fields && k == AttrName(f, suffix) {
        var f :| f in fields && k == AttrName(f, suffix);
        assert twice[k] == val(f) == once[k];
      }
    }
    assert twice.Keys == once.Keys;
  }

  /** The class attributes are shared by every instance, and each instance's generator
      run installs properties bound to its own user: once a second instance with
      another user has run, the first instance's properties show the second user's
      timezone. */
  lemma LaterInstanceOverwritesProperties(attrs: map<string, Value>, fields: seq<string>, suffix: string,
                                          u1: Value, u2: Value, f: string)
    requires f in fields && u1 != u2
    ensures var shared := Installed(Installed(attrs, fields, suffix, PropertyOf(u1)), fields, suffix, PropertyOf(u2));
            shared[AttrName(f, suffix)] == VUtzProperty(f, u2) &&
            shared[AttrName(f, suffix)] != VUtzProperty(f, u1)
  {
  }

  /** A generator run that writes into the instance's own attributes instead of the
      shared class: only that instance changes. */
  function InstallOnInstance(heap: Heap, obj: nat, fields: seq<string>, suffix: string, user: Value): (r: Heap)
    requires obj in heap
    ensures r.Keys == heap.Keys
    ensures forall o :: o in heap && o != obj ==> r[o] == heap[o]
    ensures r[obj].cls == heap[obj].cls
    ensures forall f :: f in fields ==> GetAttr(r, VRef(obj), AttrName(f, suffix)) == Some(VUtzProperty(f, user))
    ensures forall a :: a in heap[obj].attrs && (forall f :: f in fields ==> a != AttrName(f, suffix)) ==>
              a in r[obj].attrs && r[obj].attrs[a] == heap[obj].attrs[a]
    ensures forall a :: a in r[obj].attrs ==> a in heap[obj].attrs || exists f :: f in fields && a == AttrName(f, suffix)
  {
    heap[obj := Instance(heap[obj].cls, Installed(heap[obj].attrs, fields, suffix, PropertyOf(user)))]
  }

  /** With per-instance installation, two instances with different users each keep
      the property bound to their own user, whatever order they were built in. */
  lemma EachInstanceKeepsItsUser(heap: Heap, o1: nat, o2: nat, fields: seq<string>, suffix: string,
                                 u1: Value, u2: Value, f: string)
    requires o1 in heap && o2 in heap && o1 != o2 && f in fields
    ensures var h := InstallOnInstance(InstallOnInstance(heap, o1, fields, suffix, u1), o2, fields, suffix, u2);
            GetAttr(h, VRef(o1), AttrName(f, suffix)) == Some(VUtzProperty(f, u1)) &&
            GetAttr(h, VRef(o2), AttrName(f, suffix)) == Some(VUtzProperty(f, u2))
  {
    var h1 := InstallOnInstance(heap, o1, fields, suffix, u1);
    var h := InstallOnInstance(h1, o2, fields, suffix, u2);
    assert h[o1] == h1[o1];
  }

  /** The state a generator leaves: the class attributes after the `setattr`s that ran,
      and the exception that stopped it, if any. Attributes set before the exception
      stay on the class. */
  datatype Install = Install(attrs: map<string, Value>, error: Option<Error>)

  /** A generator loop: for each field in order, build the attribute with `make` (which
      may raise) and set it under `AttrName(field, suffix)`; stop at the first
      exception. */
  function InstallAll(attrs: map<string, Value>, fields: seq<string>, suffix: string, make: string -> Result<Value>)
    : Install
    decreases |fields|
  {
    if fields == [] then Install(attrs, None)
    else
      var prev := InstallAll(attrs, fields[..|fields| - 1], suffix, make);
      var last := fields[|fields| - 1];
      if prev.error.Some? then prev
      else match make(last)
        case Err(e) => Install(prev.attrs, Some(e))
        case Ok(v) => Install(prev.attrs[AttrName(last, suffix) := v], None)
  }

  /** The generator loop itself. */
  method SetAttrsFor(attrs: map<string, Value>, fields: seq<string>, suffix: string, make: string -> Result<Value>)
    returns (r: Install)
    ensures r == InstallAll(attrs, fields, suffix, make)
  {
    var current := attrs;
    var i := 0;
    while i < |fields|
      invariant 0 <= i <= |fields|
      invariant InstallAll(attrs, fields[..i], suffix, make) == Install(current, None)
    {
      assert fields[..i + 1][..i] == fields[..i];
      var made := make(fields[i]);
      if made.Err? {
        PrefixErrorPersists(attrs, fields, i + 1, suffix, make);
        return Install(current, Some(made.error));
      }
      current := current[AttrName(fields[i], suffix) := made.value];
      i := i + 1;
    }
    assert fields[..i] == fields;
    return Install(current, None);
  }

  /** Once a prefix of the fields stops with an exception, the whole loop stops with it. */
  lemma {:induction false} PrefixErrorPersists(attrs: map<string, Value>, fields: seq<string>, k: nat, suffix: string, make: string -> Result<Value>)
    requires k <= |fields|
    requires InstallAll(attrs, fields[..k], suffix, make).error.Some?
    ensures InstallAll(attrs, fields, suffix, make) == InstallAll(attrs, fields[..k], suffix, make)
    decreases |fields| - k
  {
    if k < |fields| {
      var longer := fields[..k + 1];
      assert longer[..|longer| - 1] == fields[..k];
      PrefixErrorPersists(attrs, fields, k + 1, suffix, make);
    } else {
      assert fields[..k] == fields;
    }
  }

  /** When every field's attribute is built without an exception, the loop installs
      exactly those attributes. */
  lemma {:induction false} InstallAllSucceeds(attrs: map<string, Value>, fields: seq<string>, suffix: string,
                                              make: string -> Result<Value>, val: string -> Value)
    requires forall f :: f in fields ==> make(f) == Ok(val(f))
    ensures InstallAll(attrs, fields, suffix, make) == Install(Installed(attrs, fields, suffix, val), None)
    decreases |fields|
  {
    if fields != [] {
      var init := fields[..|fields| - 1];
      assert forall f :: f in init ==> f in fields;
      InstallAllSucceeds(attrs, init, suffix, make, val);
      assert make(fields[|fields| - 1]) == Ok(val(fields[|fields| - 1]));
    }
  }

  /** When the first field whose attribute fails is the `k`-th, the loop stops there
      with the attributes of the fields before it installed. */
  lemma InstallAllStopsAtFirstError(attrs: map<string, Value>, fields: seq<string>, k: nat, suffix: string,
                                    make: string -> Result<Value>, val: string -> Value)
    requires k < |fields| && make(fields[k]).Err?
    requires forall i :: 0 <= i < k ==> make(fields[i]) == Ok(val(fields[i]))
    ensures InstallAll(attrs, fields, suffix, make) ==
            Install(Installed(attrs, fields[..k], suffix, val), Some(make(fields[k]).error))
  {
    forall f | f in fields[..k] ensures make(f) == Ok(val(f)) {
      var i :| 0 <= i < k && fields[..k][i] == f;
    }
    InstallAllSucceeds(attrs, fields[..k], suffix, make, val);
    assert fields[..k + 1][..k] == fields[..k];
    PrefixErrorPersists(attrs, fields, k + 1, suffix, make);
  }

  /** Index of the first entry that is not a str; `|items|` when all are. */
  function FirstNonStr(items: seq<Value>): (k: nat)
    ensures k <= |items|
    ensures forall i :: 0 <= i < k ==> items[i].VStr?
    ensures k < |items| ==> !items[k].VStr?
  {
    if items == [] then 0
    else if !items[0].VStr? then 0
    else 1 + FirstNonStr(items[1..])
  }

  /** A generator loop over configured entries, each looked up as a model field by
      `make`: an entry that is not a str names no field, so the lookup raises
      FieldDoesNotExist when the loop reaches it. */
  function InstallEntries(attrs: map<string, Value>, items: seq<Value>, suffix: string, make: string -> Result<Value>)
    : (r: Install)
    ensures FirstNonStr(items) == |items| ==> r == InstallAll(attrs, Strs(items), suffix, make)
  {
    var k := FirstNonStr(items);
    var pre := InstallAll(attrs, Strs(items[..k]), suffix, make);
    assert k == |items| ==> items[..k] == items;
    if k == |items| || pre.error.Some? then pre else Install(pre.attrs, Some(FieldDoesNotExist))
  }

  /** The generator loop over configured entries. */
  method SetAttrsForEntries(attrs: map<string, Value>, items: seq<Value>, suffix: string, make: string -> Result<Value>)
    returns (r: Install)
    ensures r == InstallEntries(attrs, items, suffix, make)
  {
    var current := attrs;
    var i := 0;
    while i < |items|
      invariant 0 <= i <= |items|
      invariant forall j :: 0 <= j < i ==> items[j].VStr?
      invariant InstallAll(attrs, Strs(items[..i]), suffix, make) == Install(current, None)
    {
      if !items[i].VStr? {
        assert FirstNonStr(items) == i by { FirstNonStrAt(items, i); }
        return Install(current, Some(FieldDoesNotExist));
      }
      var field := items[i].s;
      var names := Strs(items[..i + 1]);
      assert names[..|names| - 1] == Strs(items[..i]) && names[|names| - 1] == field;
      var made := make(field);
      if made.Err? {
        assert InstallAll(attrs, names, suffix, make) == Install(current, Some(made.error));
        FirstNonStrAtLeast(items, i);
        var all := Strs(items[..FirstNonStr(items)]);
        assert all[..i + 1] == names;
        PrefixErrorPersists(attrs, all, i + 1, suffix, make);
        return Install(current, Some(made.error));
      }
      current := current[AttrName(field, suffix) := made.value];
      i := i + 1;
    }
    assert items[..i] == items;
    return Install(current, None);
  }

  /** The first non-str entry is at `i` when the entries before it are all str. */
  lemma FirstNonStrAt(items: seq<Value>, i: nat)
    requires i < |items| && !items[i].VStr?
    requires forall j :: 0 <= j < i ==> items[j].VStr?
    ensures FirstNonStr(items) == i
  {
  }

  /** The first non-str entry is not before `i` when the entries up to `i` are str. */
  lemma FirstNonStrAtLeast(items: seq<Value>, i: nat)
    requires i < |items|
    requires forall j :: 0 <= j <= i ==> items[j].VStr?
    ensures FirstNonStr(items) > i
  {
  }
}
