/** Vocabulary shared by every module of the model: Python-level values and their
    truthiness, iteration and membership, the exception kinds the library raises or
    lets through, and the Option/Result wrappers used in place of exceptions. */
module Common {

  datatype Option<T> = None | Some(value: T)

  /** Exception kinds. The library's own kinds form a hierarchy (see the predicates
      below); the rest are Python's and Django's built-in kinds. */
  datatype Error =
    | TypeError | AttributeError | ValueError | IndexError | RecursionError | AssertionError
    | FieldError | FieldDoesNotExist | ImproperlyConfigured | NotImplementedError
    | ValidationError | DoesNotExist
    | UTZError | ConfigurationError | ModelConfigurationError | SerializerConfigurationError
    | ModelError | SerializerError

  /** ModelConfigurationError and SerializerConfigurationError are ConfigurationErrors. */
  predicate IsConfigurationError(e: Error)
  {
    e.ConfigurationError? || e.ModelConfigurationError? || e.SerializerConfigurationError?
  }

  /** Every library-defined kind is a UTZError. */
  predicate IsUTZError(e: Error)
  {
    e.UTZError? || IsConfigurationError(e) || e.ModelError? || e.SerializerError?
  }

  datatype Result<T> = Ok(value: T) | Err(error: Error)

  /** A calendar datetime; `tz` is the key of its tzinfo, None for a naive value. */
  datatype DateTime = DateTime(
    year: int, month: int, day: int,
    hour: int, minute: int, second: int, microsecond: int,
    tz: Option<string>)

  /** Keyword arguments of a serializer field constructor. */
  type Kwargs = map<string, Value>

  /** The serializer field classes the library instantiates. */
  datatype FieldClass = UTZDateTimeField | UTZTimeField

  /** Python values as the core sees them. Model instances are references into a heap
      (see module Traversal); generated class attributes and serializer fields are
      values describing what was installed. */
  datatype Value =
    | VNone
    | VBool(b: bool)
    | VInt(i: int)
    | VStr(s: string)
    | VList(items: seq<Value>)
    | VTuple(items: seq<Value>)
    | VTzInfo(key: string)
    | VDatetime(dt: DateTime)
    | VRef(id: nat)
    | VFunc(name: string)
    | VUtzProperty(field: string, user: Value)
    | VFunctionAttribute(funcName: string, field: string)
    | VSerializerField(cls: FieldClass, kwargs: Kwargs)

  /** Python's truth value of `v`. */
  predicate Truthy(v: Value)
  {
    match v
    case VNone => false
    case VBool(b) => b
    case VInt(i) => i != 0
    case VStr(s) => s != ""
    case VList(xs) => xs != []
    case VTuple(xs) => xs != []
    case _ => true
  }

  /** The one-character strings of `s`, in order: what iterating a str yields. */
  function Chars(s: string): (r: seq<Value>)
    ensures |r| == |s|
    ensures forall i :: 0 <= i < |s| ==> r[i] == VStr([s[i]])
  {
    if s == "" then [] else [VStr([s[0]])] + Chars(s[1..])
  }

  /** What a `for` loop over `v` visits, or the TypeError raised for a non-iterable. */
  function Iterate(v: Value): (r: Result<seq<Value>>)
    ensures r.Ok? <==> (v.VList? || v.VTuple? || v.VStr?)
    ensures v.VList? || v.VTuple? ==> r == Ok(v.items)
    ensures r.Err? ==> r.error == TypeError
  {
    match v
    case VList(xs) => Ok(xs)
    case VTuple(xs) => Ok(xs)
    case VStr(s) => Ok(Chars(s))
    case _ => Err(TypeError)
  }

  /** `a` occurs as a contiguous piece of `b`. */
  predicate IsSubstring(a: string, b: string)
    decreases |b|
  {
    (|a| <= |b| && b[..|a|] == a) || (|b| > 0 && IsSubstring(a, b[1..]))
  }

  /** Python's `x in container`: element test for lists and tuples, substring test
      for a str searched for a str, TypeError otherwise. */
  function Contains(container: Value, x: Value): (r: Result<bool>)
    ensures (container.VList? || container.VTuple?) ==> r == Ok(x in container.items)
    ensures container.VStr? && x.VStr? ==> r == Ok(IsSubstring(x.s, container.s))
    ensures r.Err? <==> !(container.VList? || container.VTuple? || (container.VStr? && x.VStr?))
  {
    match container
    case VList(xs) => Ok(x in xs)
    case VTuple(xs) => Ok(x in xs)
    case VStr(s) => if x.VStr? then Ok(IsSubstring(x.s, s)) else Err(TypeError)
    case _ => Err(TypeError)
  }

  /** Python's `set(v)`. */
  function ToSet(v: Value): (r: Result<set<Value>>)
    ensures r.Ok? <==> Iterate(v).Ok?
    ensures r.Ok? ==> forall x :: x in r.value <==> x in Iterate(v).value
  {
    match Iterate(v)
    case Ok(xs) => Ok(set x | x in xs)
    case Err(e) => Err(e)
  }

  /** The names in a list or tuple of strings (non-strings are dropped). */
  function StringItems(xs: seq<Value>): (r: seq<string>)
    ensures forall n :: n in r <==> VStr(n) in xs
  {
    if xs == [] then []
    else (if xs[0].VStr? then [xs[0].s] else []) + StringItems(xs[1..])
  }

  /** The strings of a list whose items are all strings. */
  function Strs(items: seq<Value>): (r: seq<string>)
    requires forall i :: 0 <= i < |items| ==> items[i].VStr?
    ensures |r| == |items|
    ensures forall i :: 0 <= i < |items| ==> r[i] == items[i].s
  {
    seq(|items|, i requires 0 <= i < |items| => items[i].s)
  }
}
