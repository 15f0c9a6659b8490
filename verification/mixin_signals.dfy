/** `user_pre_save_handler` (django_utz_mixins/signals.py): on a `pre_save` of the
    user model, read the field named by the instance's `user_timezone_field`, fetch
    the stored record by pk with no fallback, and send `user_timezone_changed`
    with the user model as sender when the two values differ. */
module MixinSignals {
  import opened Common
  import opened Signals

  /** `getattr(user, "user_timezone_field", None)` */
  function TimezoneFieldOf(userAttrs: map<string, Value>): Value
  {
    if "user_timezone_field" in userAttrs then userAttrs["user_timezone_field"] else VNone
  }

  /** The handler for a `pre_save` of `sender`; it is connected for the user model
      only. `stored` is the record with the user's pk, None when there is none. */
  function PreSaveHandler(userModel: string, sender: string, user: Value, userAttrs: map<string, Value>,
                          stored: Option<map<string, Value>>): (r: Result<Option<Event>>)
    ensures sender != userModel ==> r == Ok(None)
    ensures sender == userModel && stored.None? ==> r == Err(DoesNotExist)
    ensures r.Ok? && r.value.Some? ==>
              stored.Some? && r.value.value.sender == userModel && r.value.value.user == user &&
              AttrOf(stored.value, TimezoneFieldOf(userAttrs)) == Ok(r.value.value.oldTimezone) &&
              AttrOf(userAttrs, TimezoneFieldOf(userAttrs)) == Ok(r.value.value.newTimezone) &&
              r.value.value.oldTimezone != r.value.value.newTimezone
    ensures r.Err? ==> r.error in {DoesNotExist, AttributeError, TypeError}
  {
    if sender != userModel then Ok(None)
    else
      var tzField := TimezoneFieldOf(userAttrs);
      if stored.None? then Err(DoesNotExist)
      else
        match AttrOf(stored.value, tzField)
        case Err(e) => Err(e)
        case Ok(oldTimezone) =>
          match AttrOf(userAttrs, tzField)
          case Err(e) => Err(e)
          case Ok(newTimezone) =>
            if oldTimezone != newTimezone then Ok(Some(TimezoneChanged(userModel, user, oldTimezone, newTimezone)))
            else Ok(None)
  }

  /** For a stored user whose timezone field can be read on both sides, exactly one
      event when the value changed and none otherwise. */
  lemma FiresIffChanged(userModel: string, user: Value, userAttrs: map<string, Value>,
                        storedAttrs: map<string, Value>, tzField: string)
    requires TimezoneFieldOf(userAttrs) == VStr(tzField)
    requires tzField in userAttrs && tzField in storedAttrs
    ensures PreSaveHandler(userModel, userModel, user, userAttrs, Some(storedAttrs)) ==
              if storedAttrs[tzField] != userAttrs[tzField]
              then Ok(Some(TimezoneChanged(userModel, user, storedAttrs[tzField], userAttrs[tzField])))
              else Ok(None)
  {
  }

  /** Without `user_timezone_field` the lookup is `getattr(record, None)`, a
      TypeError, for any stored user. */
  lemma MissingFieldNameIsTypeError(userModel: string, user: Value, userAttrs: map<string, Value>,
                                    storedAttrs: map<string, Value>)
    requires "user_timezone_field" !in userAttrs
    ensures PreSaveHandler(userModel, userModel, user, userAttrs, Some(storedAttrs)) == Err(TypeError)
  {
  }

  /** Where the other handler treats a new user as a change from "", this one
      raises before the first save of any user. */
  lemma NewUserRaises(userModel: string, user: Value, userAttrs: map<string, Value>)
    ensures PreSaveHandler(userModel, userModel, user, userAttrs, None) == Err(DoesNotExist)
  {
  }
}
