/** `DjangoUTZMiddleware` and `get_request_user` (django_utz/middleware.py): the
    request user kept in one slot of thread-local storage for the duration of a
    request. One thread's storage is modelled; the slot is either absent or holds
    a user or None. */
module Middleware {
  import opened Common

  /** `request.user`: the user object and its `is_authenticated`. */
  datatype RequestUser = RequestUser(user: Value, isAuthenticated: bool)

  /** What `process_request` stores: the user when authenticated, else None. */
  function StoredFor(u: RequestUser): (r: Option<RequestUser>)
    ensures r.Some? <==> u.isAuthenticated
    ensures r.Some? ==> r.value == u
  {
    if u.isAuthenticated then Some(u) else None
  }

  /** `get_request_user()` on a slot that is absent (None), holds None (Some(None))
      or holds a user. */
  function ReadSlot(slot: Option<Option<RequestUser>>): (r: Option<RequestUser>)
    ensures r.Some? <==> slot.Some? && slot.value.Some? && slot.value.value.isAuthenticated
    ensures r.Some? ==> r == slot.value
  {
    if slot.Some? && slot.value.Some? && slot.value.value.isAuthenticated then slot.value else None
  }

  /** After `process_request`, reading gives back exactly the authenticated user,
      and nothing for an anonymous one. */
  lemma ReadBackAfterRequest(u: RequestUser)
    ensures ReadSlot(Some(StoredFor(u))) == (if u.isAuthenticated then Some(u) else None)
    ensures ReadSlot(Some(StoredFor(u))) == StoredFor(u)
  {
  }

  /** The thread-local storage of one thread. */
  class LocalThreadStorage {
    /** The "django_utz-request_user" attribute: absent, None, or a user. */
    var requestUser: Option<Option<RequestUser>>

    constructor ()
      ensures requestUser.None?
    {
      requestUser := None;
    }

    /** `get_request_user()` */
    function GetRequestUser(): (r: Option<RequestUser>)
      reads this
      ensures r.Some? <==> requestUser.Some? && requestUser.value.Some? && requestUser.value.value.isAuthenticated
      ensures r.Some? ==> requestUser == Some(r)
    {
      ReadSlot(requestUser)
    }

    /** `DjangoUTZMiddleware.process_request`: the slot is set, whatever it held. */
    method ProcessRequest(u: RequestUser)
      modifies this
      ensures requestUser == Some(StoredFor(u))
      ensures GetRequestUser() == StoredFor(u)
    {
      if u.isAuthenticated {
        requestUser := Some(Some(u));
      } else {
        requestUser := Some(None);
      }
      ReadBackAfterRequest(u);
    }

    /** `DjangoUTZMiddleware.process_response`: the slot is removed if present, and
        the response is passed through unchanged. */
    method ProcessResponse<R>(response: R) returns (r: R)
      modifies this
      ensures r == response
      ensures requestUser.None?
      ensures GetRequestUser().None?
    {
      if requestUser.Some? {
        requestUser := None;
      }
      r := response;
    }
  }
}
