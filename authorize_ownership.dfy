/**
 * The ownership guard run before the exemption handlers: with auth enabled it
 * looks the exemption up by the id from the path or the payload and lets the
 * request continue only when the record exists and belongs to the caller.
 * Both failures are 404s, so a caller cannot tell someone else's exemption
 * from a missing one.
 */
module AuthorizeOwnership {
  import opened Wrappers
  import opened Js
  import opened Errors

  const NOT_AUTHORIZED_MESSAGE: string := "Not authorized to update this resource"

  /** `params.id || payload?.id` */
  function RequestedId(params: map<string, Value>, payload: Value): (v: Value)
    ensures Truthy(Get(params, "id")) ==> v == Get(params, "id")
    ensures !Truthy(Get(params, "id")) ==> v == GetOpt(payload, "id")
  {
    var fromParams := Get(params, "id");
    if Truthy(fromParams) then fromParams else GetOpt(payload, "id")
  }

  /**
   * `authorizeOwnership`: `contactId` is the caller's, as `getContactId` reads it from the
   * credentials; `exemptions` is the collection, which the guard only reads.
   */
  function Authorize(authEnabled: bool, params: map<string, Value>, payload: Value,
                     exemptions: map<ObjectId, Document>, contactId: Value): (d: Lifecycle)
    ensures d == Continue <==>
              || !authEnabled
              || (var id := ParseObjectId(RequestedId(params, payload));
                  id.Some? && id.value in exemptions && StrictEquals(Get(exemptions[id.value].fields, "contactId"), contactId))
    ensures d.Fail? ==> d.error.PlainError? || d.error.boom.statusCode == 404
  {
    if !authEnabled then Continue
    else
      var id := ParseObjectId(RequestedId(params, payload));
      if id.None? then Fail(PlainError(INVALID_ID_MESSAGE))
      else if id.value !in exemptions then Fail(BoomError(NotFound(NOT_FOUND_TEXT)))
      else if !StrictEquals(Get(exemptions[id.value].fields, "contactId"), contactId) then
        Fail(BoomError(NotFound(NOT_AUTHORIZED_MESSAGE)))
      else Continue
  }

  /** With auth disabled the guard continues whatever the request and the collection hold. */
  lemma DisabledAlwaysContinues(params: map<string, Value>, payload: Value,
                                exemptions: map<ObjectId, Document>, contactId: Value)
    ensures Authorize(false, params, payload, exemptions, contactId) == Continue
  {
  }

  /** A well-formed id naming no record is a 404 with Boom's default message. */
  lemma MissingRecordIsNotFound(params: map<string, Value>, payload: Value,
                                exemptions: map<ObjectId, Document>, contactId: Value)
    requires var id := ParseObjectId(RequestedId(params, payload));
             id.Some? && id.value !in exemptions
    ensures Authorize(true, params, payload, exemptions, contactId) == Fail(BoomError(Boom(404, "Not Found")))
  {
  }

  /** Someone else's record is a 404 "Not authorized to update this resource", never a 403. */
  lemma ForeignRecordIsNotFound(params: map<string, Value>, payload: Value,
                                exemptions: map<ObjectId, Document>, contactId: Value)
    requires var id := ParseObjectId(RequestedId(params, payload));
             id.Some? && id.value in exemptions && !StrictEquals(Get(exemptions[id.value].fields, "contactId"), contactId)
    ensures Authorize(true, params, payload, exemptions, contactId) == Fail(BoomError(Boom(404, NOT_AUTHORIZED_MESSAGE)))
  {
  }

  /**
   * A stored owner that is an object, a Date or an ObjectId is never `===` the caller's contact
   * id, however alike the two look, so such a record is refused as someone else's.
   */
  lemma NonPrimitiveOwnerIsNeverMatched(params: map<string, Value>, payload: Value,
                                        exemptions: map<ObjectId, Document>, contactId: Value)
    requires var id := ParseObjectId(RequestedId(params, payload));
             && id.Some? && id.value in exemptions
             && var owner := Get(exemptions[id.value].fields, "contactId");
             owner.Obj? || owner.Date? || owner.Oid?
    ensures Authorize(true, params, payload, exemptions, contactId) == Fail(BoomError(Boom(404, NOT_AUTHORIZED_MESSAGE)))
  {
  }

  /** The path id wins whenever it is truthy: the payload id is then never looked at. */
  lemma PathIdTakesPrecedence(params: map<string, Value>, payload1: Value, payload2: Value,
                              exemptions: map<ObjectId, Document>, contactId: Value)
    requires Truthy(Get(params, "id"))
    ensures Authorize(true, params, payload1, exemptions, contactId) == Authorize(true, params, payload2, exemptions, contactId)
  {
  }

  /** Only the owner field of the looked-up record matters: changing any other record does not change the decision. */
  lemma DecisionDependsOnlyOnLookedUpRecord(params: map<string, Value>, payload: Value,
                                            exemptions: map<ObjectId, Document>, other: ObjectId,
                                            d: Document, contactId: Value)
    requires ParseObjectId(RequestedId(params, payload)) != Some(other)
    ensures Authorize(true, params, payload, exemptions[other := d], contactId)
         == Authorize(true, params, payload, exemptions, contactId)
  {
  }
}
