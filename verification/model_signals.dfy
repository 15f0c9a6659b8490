/** The `pre_save`/`post_save` pair of django_utz/models/signals.py. On a `pre_save`
    of the user model, for an instance of a UTZUserModelMixin subclass, the
    handler captures the stored and the new timezone and connects a `post_save`
    receiver closed over them; that receiver sends `user_timezone_changed` when the
    save was an update that changed the timezone.

    The receiver is a function local to the `pre_save` handler and is connected
    with the dispatcher's default weak reference: nothing else holds it, so it is
    collected, and disconnected, when the `pre_save` handler returns, before the
    `post_save` it waits for. `keepsReceiver` selects between that behaviour (false)
    and the evidently intended one (true), where the captured state waits for the
    next `post_save` of the same sender and is consumed by it. */
module ModelSignals {
  import opened Common
  import opened Schema
  import opened Signals
  import ModelMixins

  /** What the `post_save` receiver is closed over. */
  datatype Capture = Capture(sender: string, user: Value, oldTimezone: Value, newTimezone: Value)

  /** The `pre_save` handler's reading of the instance: None when it ignores the
      save (another sender, or a user class without the mixin). The field name is
      the instance's `user_timezone_field`; the old value is the stored one, or ""
      for a user not yet saved. */
  function PreSaveCapture(userModel: string, sender: ModelClass, userClass: ModelClass, user: Value,
                          userAttrs: map<string, Value>, stored: Option<map<string, Value>>): (r: Result<Option<Capture>>)
    ensures Qualname(sender) != userModel || !IsSubclass(userClass, ModelMixins.USER_MIXIN) ==> r == Ok(None)
    ensures r.Ok? && r.value.Some? ==>
              Qualname(sender) == userModel && IsSubclass(userClass, ModelMixins.USER_MIXIN) &&
              r.value.value.sender == userModel && r.value.value.user == user &&
              "user_timezone_field" in userAttrs &&
              PreviousTimezone(stored, userAttrs["user_timezone_field"]) == Ok(r.value.value.oldTimezone) &&
              AttrOf(userAttrs, userAttrs["user_timezone_field"]) == Ok(r.value.value.newTimezone)
    ensures Qualname(sender) == userModel && IsSubclass(userClass, ModelMixins.USER_MIXIN) ==> r != Ok(None)
    ensures r.Err? ==> r.error == AttributeError || r.error == TypeError
  {
    if Qualname(sender) != userModel || !IsSubclass(userClass, ModelMixins.USER_MIXIN) then Ok(None)
    else
      match AttrOf(userAttrs, VStr("user_timezone_field"))
      case Err(e) => Err(e)
      case Ok(tzField) =>
        match PreviousTimezone(stored, tzField)
        case Err(e) => Err(e)
        case Ok(oldTimezone) =>
          match AttrOf(userAttrs, tzField)
          case Err(e) => Err(e)
          case Ok(newTimezone) => Ok(Some(Capture(Qualname(sender), user, oldTimezone, newTimezone)))
  }

  /** The `post_save` receiver: an event only for an update that changed the
      timezone, carrying exactly what was captured. */
  function PostSaveEvent(c: Capture, created: bool): (r: Option<Event>)
    ensures r.Some? <==> !created && c.oldTimezone != c.newTimezone
    ensures r.Some? ==> r.value == TimezoneChanged(c.sender, c.user, c.oldTimezone, c.newTimezone)
  {
    if !created && c.oldTimezone != c.newTimezone
    then Some(TimezoneChanged(c.sender, c.user, c.oldTimezone, c.newTimezone))
    else None
  }

  /** One `save()` with no receiver pending: `pre_save`, then, unless it raised,
      the `post_save` with the `created` flag. */
  function SaveEvent(keepsReceiver: bool, userModel: string, sender: ModelClass, userClass: ModelClass, user: Value,
                     userAttrs: map<string, Value>, stored: Option<map<string, Value>>, created: bool)
    : (r: Result<Option<Event>>)
    ensures r.Err? <==> PreSaveCapture(userModel, sender, userClass, user, userAttrs, stored).Err?
    ensures r.Ok? && r.value.Some? ==>
              keepsReceiver && !created && r.value.value.oldTimezone != r.value.value.newTimezone &&
              PreSaveCapture(userModel, sender, userClass, user, userAttrs, stored) ==
                Ok(Some(Capture(r.value.value.sender, r.value.value.user, r.value.value.oldTimezone, r.value.value.newTimezone)))
  {
    match PreSaveCapture(userModel, sender, userClass, user, userAttrs, stored)
    case Err(e) => Err(e)
    case Ok(None) => Ok(None)
    case Ok(Some(c)) => Ok(if keepsReceiver then PostSaveEvent(c, created) else None)
  }

  /** The two signal phases and the receiver connected between them. */
  class SaveSignals {
    const userModel: string
    const keepsReceiver: bool
    /** The captured state of the `post_save` receiver still connected, if any. */
    var pending: Option<Capture>

    /** A weakly held receiver never outlives its `pre_save` handler. */
    predicate Valid()
      reads this
    {
      !keepsReceiver ==> pending.None?
    }

    constructor (userModel: string, keepsReceiver: bool)
      ensures this.userModel == userModel && this.keepsReceiver == keepsReceiver
      ensures pending.None? && Valid()
    {
      this.userModel := userModel;
      this.keepsReceiver := keepsReceiver;
      pending := None;
    }

    /** `utz_change_handler_pre_save`: the exception it raises, if any. */
    method PreSave(sender: ModelClass, userClass: ModelClass, user: Value,
                   userAttrs: map<string, Value>, stored: Option<map<string, Value>>) returns (e: Option<Error>)
      requires Valid()
      modifies this
      ensures Valid()
      ensures var c := PreSaveCapture(userModel, sender, userClass, user, userAttrs, stored);
              (c.Err? ==> e == Some(c.error)) && (c.Ok? ==> e.None?)
      ensures var c := PreSaveCapture(userModel, sender, userClass, user, userAttrs, stored);
              pending == if keepsReceiver && c.Ok? && c.value.Some? then c.value else old(pending)
    {
      var c := PreSaveCapture(userModel, sender, userClass, user, userAttrs, stored);
      if c.Err? {
        return Some(c.error);
      }
      if keepsReceiver && c.value.Some? {
        pending := c.value;
      }
      e := None;
    }

    /** A `post_save` of `sender`: the pending receiver, if it was connected for that
        sender, runs once and is consumed. */
    method PostSave(sender: string, created: bool) returns (ev: Option<Event>)
      requires Valid()
      modifies this
      ensures Valid()
      ensures old(pending).Some? && old(pending).value.sender == sender ==>
                ev == PostSaveEvent(old(pending).value, created) && pending.None?
      ensures !(old(pending).Some? && old(pending).value.sender == sender) ==> ev.None? && pending == old(pending)
      ensures !keepsReceiver ==> ev.None?
    {
      ev := None;
      if pending.Some? && pending.value.sender == sender {
        ev := PostSaveEvent(pending.value, created);
        pending := None;
      }
    }

    /** A whole `save()`: the two phases compose to SaveEvent. */
    method Save(sender: ModelClass, userClass: ModelClass, user: Value, userAttrs: map<string, Value>,
                stored: Option<map<string, Value>>, created: bool) returns (r: Result<Option<Event>>)
      requires Valid() && pending.None?
      modifies this
      ensures Valid() && pending.None?
      ensures r == SaveEvent(keepsReceiver, userModel, sender, userClass, user, userAttrs, stored, created)
    {
      var e := PreSave(sender, userClass, user, userAttrs, stored);
      if e.Some? {
        return Err(e.value);
      }
      var ev := PostSave(Qualname(sender), created);
      r := Ok(ev);
    }
  }

  /** As written, no save ever sends the event. */
  lemma AsWrittenNeverFires(userModel: string, sender: ModelClass, userClass: ModelClass, user: Value,
                            userAttrs: map<string, Value>, stored: Option<map<string, Value>>, created: bool)
    ensures var r := SaveEvent(false, userModel, sender, userClass, user, userAttrs, stored, created);
            r.Ok? ==> r.value.None?
  {
  }

  /** With the receiver kept, an update of a mixin user's timezone sends exactly one
      event, carrying the values captured before the save; a creation, or a save
      that keeps the timezone, sends none. */
  lemma KeptReceiverFiresIffUpdated(userModel: string, sender: ModelClass, userClass: ModelClass, user: Value,
                                    userAttrs: map<string, Value>, stored: Option<map<string, Value>>, created: bool, c: Capture)
    requires PreSaveCapture(userModel, sender, userClass, user, userAttrs, stored) == Ok(Some(c))
    ensures var r := SaveEvent(true, userModel, sender, userClass, user, userAttrs, stored, created);
            r.Ok? && (r.value.Some? <==> !created && c.oldTimezone != c.newTimezone) &&
            (r.value.Some? ==> r.value.value == TimezoneChanged(userModel, user, c.oldTimezone, c.newTimezone))
  {
  }

  /** A concrete update that shows the difference: the timezone of a saved user
      changes from "UTC" to "Africa/Lagos". */
  lemma LocalReceiverLosesChange(userModel: string, sender: ModelClass, userClass: ModelClass, user: Value)
    requires Qualname(sender) == userModel && IsSubclass(userClass, ModelMixins.USER_MIXIN)
    ensures var attrs := map["user_timezone_field" := VStr("timezone"), "timezone" := VStr("Africa/Lagos")];
            var stored := Some(map["timezone" := VStr("UTC")]);
            SaveEvent(false, userModel, sender, userClass, user, attrs, stored, false) == Ok(None) &&
            SaveEvent(true, userModel, sender, userClass, user, attrs, stored, false) ==
              Ok(Some(TimezoneChanged(userModel, user, VStr("UTC"), VStr("Africa/Lagos"))))
  {
  }
}
