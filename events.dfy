/**
 * RequestCreateEvent.cs, RequestApproveEvent.cs and the reject event: the
 * immutable audit records of a request, one closed union over the shared
 * {Id, Data, RequestId} shape of the IEvent interface.
 */
module Events {
  import opened Common

  datatype EventKind = Created | Approved | Rejected

  datatype Event = Event(kind: EventKind, id: Guid, data: string, requestId: Guid)

  /** What every constructed event satisfies. */
  predicate ValidEvent(e: Event) {
    e.id != NoId && e.requestId != NoId && |e.data| > 0
  }

  /**
   * The event constructors: the guards run in the order id, requestId, data;
   * the data check is string.IsNullOrEmpty (whitespace-only data is accepted).
   */
  function NewEvent(kind: EventKind, id: Guid, data: string, requestId: Guid): (r: Result<Event>)
    ensures r.Success? <==> ValidEvent(Event(kind, id, data, requestId))
    ensures r.Success? ==> r.value == Event(kind, id, data, requestId)
    ensures id == NoId ==> r == Failure(EmptyIdentifier(IdParam))
    ensures id != NoId && requestId == NoId ==> r == Failure(EmptyIdentifier(RequestIdParam))
    ensures id != NoId && requestId != NoId && data == "" ==> r == Failure(BlankString(DataParam))
  {
    var check := RequireId(id, IdParam)
      .Then(RequireId(requestId, RequestIdParam))
      .Then(RequireNonEmpty(data, DataParam));
    if check.Fail? then Failure(check.error) else Success(Event(kind, id, data, requestId))
  }

  /** The static Create(data, requestId) factories; freshId stands for Guid.NewGuid(). */
  function CreateEvent(kind: EventKind, freshId: Guid, data: string, requestId: Guid): (r: Result<Event>)
    requires freshId != NoId
    ensures r.Success? <==> requestId != NoId && |data| > 0
    ensures r.Success? ==> r.value.id != NoId && r.value.kind == kind
    ensures r.Success? ==> r.value.data == data && r.value.requestId == requestId
  {
    NewEvent(kind, freshId, data, requestId)
  }

  /** The constructor gives back every valid event unchanged, and only those. */
  lemma NewEventRoundTrip(e: Event)
    ensures ValidEvent(e) ==> NewEvent(e.kind, e.id, e.data, e.requestId) == Success(e)
    ensures !ValidEvent(e) ==> NewEvent(e.kind, e.id, e.data, e.requestId).Failure?
  {
  }

  lemma WhiteSpaceDataAccepted(kind: EventKind)
    ensures NewEvent(kind, 1, " ", 2) == Success(Event(kind, 1, " ", 2))
  {
  }
}
