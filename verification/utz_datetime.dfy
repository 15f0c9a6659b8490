/** `utzdatetime` (django_utz/datetime.py, repeated in django_utz/utils.py): a
    datetime that is always aware, built from a plain datetime, with a flag saying
    whether conversion to local time should respect `settings.USE_TZ`. Also the
    getter the function-style model decorator installs per datetime field
    (`make_func_for_field` in django_utz/decorators/models.py), which builds one
    when no user is found. */
module UtzDateTime {
  import opened Common

  /** `from_datetime(v)` with `default` as the project's default timezone:
      TypeError for anything but a datetime; a naive value is made aware in the
      default timezone, an aware one keeps its tzinfo; the calendar fields are
      copied. */
  function AwareDateTime(v: Value, default: string): (r: Result<DateTime>)
    ensures r.Ok? <==> v.VDatetime?
    ensures r.Err? ==> r.error == TypeError
    ensures r.Ok? ==> r.value.tz.Some?
    ensures r.Ok? ==> r.value.tz == (if v.dt.tz.Some? then v.dt.tz else Some(default))
    ensures r.Ok? ==> r.value.(tz := v.dt.tz) == v.dt
  {
    if !v.VDatetime? then Err(TypeError)
    else if v.dt.tz.None? then Ok(v.dt.(tz := Some(default)))
    else Ok(v.dt)
  }

  /** An aware datetime comes back as it is, whatever the default timezone. */
  lemma AwareIsKept(dt: DateTime, default: string)
    requires dt.tz.Some?
    ensures AwareDateTime(VDatetime(dt), default) == Ok(dt)
  {
  }

  /** Building from a built value changes nothing, under any default. */
  lemma AwareDateTimeIdempotent(v: Value, default: string, other: string)
    requires v.VDatetime?
    ensures AwareDateTime(VDatetime(AwareDateTime(v, default).value), other) == AwareDateTime(v, default)
  {
    AwareIsKept(AwareDateTime(v, default).value, other);
  }

  class Utzdatetime {
    const dt: DateTime
    /** `convert_to_local_time`, False unless `regard_usetz` was called. */
    var convertToLocalTime: bool

    constructor (dt: DateTime)
      ensures this.dt == dt && !convertToLocalTime
    {
      this.dt := dt;
      convertToLocalTime := false;
    }

    /** `utzdatetime.from_datetime(v)` */
    static method FromDatetime(v: Value, default: string) returns (r: Result<Utzdatetime>)
      ensures r.Err? <==> AwareDateTime(v, default).Err?
      ensures r.Err? ==> r.error == TypeError
      ensures r.Ok? ==> fresh(r.value) && r.value.dt == AwareDateTime(v, default).value && !r.value.convertToLocalTime
    {
      var a := AwareDateTime(v, default);
      if a.Err? {
        return Err(a.error);
      }
      var u := new Utzdatetime(a.value);
      r := Ok(u);
    }

    /** `regard_usetz()`: sets the flag, whatever it was, and returns the object. */
    method RegardUsetz() returns (r: Utzdatetime)
      modifies this
      ensures r == this && convertToLocalTime
    {
      convertToLocalTime := true;
      r := this;
    }

    /** `disregard_usetz()`: clears the flag, whatever it was, and returns the object. */
    method DisregardUsetz() returns (r: Utzdatetime)
      modifies this
      ensures r == this && !convertToLocalTime
    {
      convertToLocalTime := false;
      r := this;
    }
  }

  /** The value of the getter for one datetime field of an instance. `user` is what
      `get_user(instance)` gave, `field` the field's value (None when the attribute
      is missing), and `toLocal(user, value)` stands for the user's
      `to_local_timezone`. With no user the value is built as by `from_datetime`. */
  function FieldGetter(user: Result<Value>, field: Option<Value>, default: string,
                       toLocal: (Value, Value) -> Result<DateTime>): (r: Result<DateTime>)
    ensures user.Err? ==> r == Err(user.error)
    ensures user.Ok? && field.None? ==> r == Err(AttributeError)
    ensures user == Ok(VNone) && field.Some? ==> r == AwareDateTime(field.value, default)
    ensures user.Ok? && user.value != VNone && field.Some? ==> r == toLocal(user.value, field.value)
  {
    match user
    case Err(e) => Err(e)
    case Ok(u) =>
      if field.None? then Err(AttributeError)
      else if u == VNone then AwareDateTime(field.value, default)
      else toLocal(u, field.value)
  }

  /** Without a user the getter never gives a naive datetime, and it keeps the
      stored calendar fields. */
  lemma NoUserGivesAwareCopy(field: Value, default: string, toLocal: (Value, Value) -> Result<DateTime>)
    requires field.VDatetime?
    ensures var r := FieldGetter(Ok(VNone), Some(field), default, toLocal);
            r.Ok? && r.value.tz.Some? && r.value.(tz := field.dt.tz) == field.dt
  {
  }
}
