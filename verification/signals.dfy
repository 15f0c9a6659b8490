/** `utz_change_handler` (django_utz/signals.py): on every `pre_save` of the user
    model, compare the stored timezone with the one about to be saved and send
    `user_timezone_changed` when they differ. The handler is connected only when
    the `ENABLE_UTZ_SIGNALS` setting is exactly `True`. Also the vocabulary the
    other two signal modules share: attribute access by a runtime name and the
    event a handler sends. */
module Signals {
  import opened Common
  import opened Schema

  /** `getattr(obj, name)` on an object with attributes `attrs`: TypeError for a
      name that is not a str, AttributeError for a missing attribute. */
  function AttrOf(attrs: map<string, Value>, name: Value): (r: Result<Value>)
    ensures r.Ok? <==> name.VStr? && name.s in attrs
    ensures r.Ok? ==> r.value == attrs[name.s]
    ensures r.Err? ==> r.error == (if name.VStr? then AttributeError else TypeError)
  {
    if !name.VStr? then Err(TypeError)
    else if name.s !in attrs then Err(AttributeError)
    else Ok(attrs[name.s])
  }

  /** One `user_timezone_changed` send: the sender, the user instance and the
      timezone before and after the save (sent as `instance`, `previous_timezone`,
      `current_timezone` here and as `user`, `old_timezone`, `new_timezone` by the
      other two handlers). */
  datatype Event = TimezoneChanged(sender: string, user: Value, oldTimezone: Value, newTimezone: Value)

  /** The stored timezone: the attribute of the record with the user's pk, or ""
      when there is none (`DoesNotExist` is caught); an attribute error is not. */
  function PreviousTimezone(stored: Option<map<string, Value>>, tzField: Value): (r: Result<Value>)
    ensures stored.None? ==> r == Ok(VStr(""))
    ensures stored.Some? ==> r == AttrOf(stored.value, tzField)
  {
    if stored.None? then Ok(VStr("")) else AttrOf(stored.value, tzField)
  }

  /** `utz_change_handler(sender, instance=user)`. `userAttrs` are the attributes of
      the instance about to be saved; `stored` those of the record with its pk, None
      when there is none. The result is the event sent, if any. */
  function ChangeHandler(sender: ModelClass, user: Value, userAttrs: map<string, Value>,
                         stored: Option<map<string, Value>>): (r: Result<Option<Event>>)
    ensures r.Ok? && r.value.Some? ==>
              MetaIsDecorated(sender.meta) && "timezone_field" in sender.meta.configs &&
              r.value.value.sender == Qualname(sender) && r.value.value.user == user &&
              PreviousTimezone(stored, sender.meta.configs["timezone_field"]) == Ok(r.value.value.oldTimezone) &&
              AttrOf(userAttrs, sender.meta.configs["timezone_field"]) == Ok(r.value.value.newTimezone) &&
              r.value.value.oldTimezone != r.value.value.newTimezone
    ensures sender.meta.NoMeta? ==> r == Ok(None)
    ensures sender.meta.MetaClass? && "_decorated" in sender.meta.configs && !MetaIsDecorated(sender.meta) ==> r == Ok(None)
    ensures r.Err? ==> r.error == AttributeError || r.error == TypeError
  {
    match sender.meta
    case NoMeta => Ok(None)
    case NotAClass => Err(AttributeError)
    case MetaClass(configs) =>
      if "_decorated" !in configs then Err(AttributeError)
      else if !Truthy(configs["_decorated"]) then Ok(None)
      else if "timezone_field" !in configs then Err(AttributeError)
      else
        var tzField := configs["timezone_field"];
        match PreviousTimezone(stored, tzField)
        case Err(e) => Err(e)
        case Ok(previous) =>
          match AttrOf(userAttrs, tzField)
          case Err(e) => Err(e)
          case Ok(current) =>
            if previous != current then Ok(Some(TimezoneChanged(Qualname(sender), user, previous, current)))
            else Ok(None)
  }

  /** `getattr(settings, "ENABLE_UTZ_SIGNALS", False) is True`: an identity test,
      so only the boolean True connects the handler. */
  predicate SignalsEnabled(setting: Option<Value>)
  {
    setting == Some(VBool(true))
  }

  /** A `pre_save` of `sender`: the handler runs only when it was connected, and it
      was connected for the user model alone. */
  function PreSave(setting: Option<Value>, userModel: string, sender: ModelClass, user: Value,
                   userAttrs: map<string, Value>, stored: Option<map<string, Value>>): (r: Result<Option<Event>>)
    ensures !SignalsEnabled(setting) || Qualname(sender) != userModel ==> r == Ok(None)
    ensures SignalsEnabled(setting) && Qualname(sender) == userModel ==> r == ChangeHandler(sender, user, userAttrs, stored)
  {
    if SignalsEnabled(setting) && Qualname(sender) == userModel then ChangeHandler(sender, user, userAttrs, stored)
    else Ok(None)
  }

  /** A truthy setting that is not the boolean True, such as 1 or "yes", leaves the
      handler disconnected. */
  lemma OnlyTrueEnables(v: Value)
    ensures SignalsEnabled(Some(v)) <==> v == VBool(true)
    ensures Truthy(VInt(1)) && !SignalsEnabled(Some(VInt(1)))
  {
  }

  /** For a decorated user model whose timezone attribute can be read, the handler
      sends exactly one event when the timezone differs from the stored one and
      none otherwise. */
  lemma FiresIffChanged(sender: ModelClass, user: Value, userAttrs: map<string, Value>,
                        stored: Option<map<string, Value>>, tzField: string)
    requires MetaIsDecorated(sender.meta) && "_decorated" in sender.meta.configs
    requires "timezone_field" in sender.meta.configs && sender.meta.configs["timezone_field"] == VStr(tzField)
    requires tzField in userAttrs
    requires stored.Some? ==> tzField in stored.value
    ensures var previous := if stored.Some? then stored.value[tzField] else VStr("");
            ChangeHandler(sender, user, userAttrs, stored) ==
              if previous != userAttrs[tzField]
              then Ok(Some(TimezoneChanged(Qualname(sender), user, previous, userAttrs[tzField])))
              else Ok(None)
  {
  }

  /** Saving a new user with a non-empty timezone counts as a change from "". */
  lemma NewUserWithTimezoneFires(sender: ModelClass, user: Value, userAttrs: map<string, Value>, tzField: string)
    requires MetaIsDecorated(sender.meta) && "_decorated" in sender.meta.configs
    requires "timezone_field" in sender.meta.configs && sender.meta.configs["timezone_field"] == VStr(tzField)
    requires tzField in userAttrs && userAttrs[tzField] != VStr("")
    ensures ChangeHandler(sender, user, userAttrs, None) ==
              Ok(Some(TimezoneChanged(Qualname(sender), user, VStr(""), userAttrs[tzField])))
  {
    FiresIffChanged(sender, user, userAttrs, None, tzField);
  }

  /** Re-saving the stored timezone never sends an event. */
  lemma UnchangedNeverFires(sender: ModelClass, user: Value, userAttrs: map<string, Value>, storedAttrs: map<string, Value>)
    requires forall f :: f in userAttrs <==> f in storedAttrs
    requires forall f :: f in userAttrs ==> userAttrs[f] == storedAttrs[f]
    ensures ChangeHandler(sender, user, userAttrs, Some(storedAttrs)).Ok? ==>
              ChangeHandler(sender, user, userAttrs, Some(storedAttrs)).value.None?
  {
  }
}
