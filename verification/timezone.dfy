/** Timezone validity (`is_timezone_valid`) and the field validator built on it
    (`validate_timezone`). The library defines both twice, with the same text, in
    django_utz/decorators/utils.py and django_utz/utils.py; this module models both.
    Which names the pytz and zoneinfo databases know is outside the model: each
    database is given as the set of names it accepts. */
module Timezone {
  import opened Common

  /** The names accepted by `pytz.timezone` and by `zoneinfo.ZoneInfo`. */
  datatype ZoneDatabases = ZoneDatabases(pytz: set<string>, zoneinfo: set<string>)

  /** A timezone value as the library receives it: a str or a tzinfo object. */
  predicate IsTimezoneLike(v: Value)
  {
    v.VStr? || v.VTzInfo?
  }

  /** `is_timezone_valid`: any tzinfo object is valid; a name is valid when at least
      one of the two databases accepts it. */
  predicate IsTimezoneValid(db: ZoneDatabases, tz: Value)
    requires IsTimezoneLike(tz)
  {
    match tz
    case VTzInfo(_) => true
    case VStr(name) => name in db.pytz || name in db.zoneinfo
  }

  /** `validate_timezone`: the value itself when valid, ValidationError otherwise. */
  function ValidateTimezone(db: ZoneDatabases, tz: Value): (r: Result<Value>)
    requires IsTimezoneLike(tz)
    ensures r.Ok? <==> IsTimezoneValid(db, tz)
    ensures r.Ok? ==> r.value == tz
    ensures r.Err? ==> r.error == ValidationError
  {
    if IsTimezoneValid(db, tz) then Ok(tz) else Err(ValidationError)
  }

  /** Validity over both databases is the disjunction of validity over each alone,
      and a tzinfo object is valid even when neither database knows anything. */
  lemma ValidityIsEitherDatabase(db: ZoneDatabases, tz: Value)
    requires IsTimezoneLike(tz)
    ensures IsTimezoneValid(db, tz) <==>
            IsTimezoneValid(ZoneDatabases(db.pytz, {}), tz) ||
            IsTimezoneValid(ZoneDatabases({}, db.zoneinfo), tz)
    ensures tz.VTzInfo? ==> IsTimezoneValid(ZoneDatabases({}, {}), tz)
  {
  }

  /** Teaching either database more names never makes a valid value invalid. */
  lemma ValidityIsMonotone(db: ZoneDatabases, more: ZoneDatabases, tz: Value)
    requires IsTimezoneLike(tz)
    requires db.pytz <= more.pytz && db.zoneinfo <= more.zoneinfo
    ensures IsTimezoneValid(db, tz) ==> IsTimezoneValid(more, tz)
  {
  }
}
