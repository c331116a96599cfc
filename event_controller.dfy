/** The event handlers: each one either answers before calling the service
    (request validation, or a null `req.user` whose `.id` throws inside the
    `try`), or calls it and turns its outcome into a status and a body. */
module EventController {
  import opened Wrappers
  import opened Models
  import opened Google
  import opened Http
  import ES = EventService

  const ServerErrorMessage := "Server error"
  const NotFoundMessage := "Event not found"

  const ServerError := Response(500, MessageJson(ServerErrorMessage))

  /** `createEvent` before the service call: the response it sends on its
      own, or None when it calls the service for `user.value.id`. */
  function CreateEventGate(errors: seq<ValidationError>, user: Option<Principal>): (r: Option<Response>)
    ensures errors != [] ==> r == Some(Response(400, ErrorsJson(errors)))
    ensures errors == [] ==> (r.None? <==> user.Some?)
    ensures errors == [] && user.None? ==> r == Some(Response(500, MessageJson("Server error")))
  {
    if errors != [] then Some(Response(400, ErrorsJson(errors)))
    else if user.None? then Some(ServerError)
    else None
  }

  function CreateEventReply(outcome: Result<EventDoc, ES.Error>): (r: Response)
    ensures r.Response? && (r.status == 201 <==> outcome.Success?)
    ensures outcome.Success? ==> r.body == EventJson(outcome.value)
    ensures outcome.Failure? ==> r == Response(500, MessageJson("Server error"))
  {
    match outcome
    case Success(doc) => Response(201, EventJson(doc))
    case Failure(_) => ServerError
  }

  /** `Event.find({ userId: owner })`. */
  function FindByOwner(events: map<EventId, Event>, owner: UserId): (r: map<EventId, Event>)
    ensures forall id :: id in r <==> id in events && events[id].userId == owner
    ensures forall id :: id in r ==> r[id] == events[id]
  {
    map id | id in events && events[id].userId == owner :: events[id]
  }

  /** A stored event is listed for its owner, as stored. */
  lemma StoredEventIsListed(events: map<EventId, Event>, id: EventId, e: Event)
    ensures id in FindByOwner(events[id := e], e.userId)
    ensures FindByOwner(events[id := e], e.userId)[id] == e
  {
  }

  /** `getEvents`: the caller's events; with a null `req.user` the handler
      throws before its `try` and the request is never answered. */
  function GetEvents(events: map<EventId, Event>, user: Option<Principal>): (r: Response)
    ensures user.None? ==> r == NoResponse
    ensures user.Some? ==> r.Response? && r.status == 200 && r.body.EventsJson?
    ensures user.Some? ==> forall id :: id in r.body.events <==> id in events && events[id].userId == user.value.id
    ensures user.Some? ==> forall id :: id in r.body.events ==> r.body.events[id] == events[id]
  {
    if user.None? then NoResponse
    else Response(200, EventsJson(FindByOwner(events, user.value.id)))
  }

  /** `updateEvent` and `deleteEvent` before the service call. */
  function UserGate(user: Option<Principal>): (r: Option<Response>)
    ensures r.None? <==> user.Some?
    ensures user.None? ==> r == Some(Response(500, MessageJson("Server error")))
  {
    if user.None? then Some(ServerError) else None
  }

  function UpdateEventReply(outcome: Result<Option<EventDoc>, ES.Error>): (r: Response)
    ensures r == Response(404, MessageJson("Event not found")) <==> outcome == Success(None)
    ensures r.Response? && (r.status == 200 <==> outcome.Success? && outcome.value.Some?)
    ensures outcome.Success? && outcome.value.Some? ==> r.body == EventJson(outcome.value.value)
    ensures outcome.Failure? ==> r == Response(500, MessageJson("Server error"))
  {
    match outcome
    case Success(None) => Response(404, MessageJson(NotFoundMessage))
    case Success(Some(doc)) => Response(200, EventJson(doc))
    case Failure(_) => ServerError
  }

  /** Every failure, a missing event included, is a 500. */
  function DeleteEventReply(outcome: Outcome<ES.Error>): (r: Response)
    ensures r == Response(204, NoContent) <==> outcome.Pass?
    ensures outcome.Fail? ==> r == Response(500, MessageJson("Server error"))
    ensures r.Response? && r.status != 404
  {
    match outcome
    case Pass => Response(204, NoContent)
    case Fail(_) => ServerError
  }

  /** `POST /events`.  When the gate answers, nothing is stored and no
      remote call is made. */
  method HandleCreateEvent(svc: ES.EventService, errors: seq<ValidationError>, body: EventData,
                           user: Option<Principal>, answer: InsertAnswer)
    returns (res: Response, ghost served: Option<Result<EventDoc, ES.Error>>)
    requires svc.db.Valid()
    modifies svc.db`events, svc.db`nextEventId, svc.cal
    ensures svc.db.Valid()
    ensures served.None? <==> CreateEventGate(errors, user).Some?
    ensures served.None? ==>
      && res == CreateEventGate(errors, user).value
      && svc.db.events == old(svc.db.events) && svc.db.nextEventId == old(svc.db.nextEventId)
      && svc.cal.calls == old(svc.cal.calls) && svc.cal.events == old(svc.cal.events)
    ensures served.Some? ==> res == CreateEventReply(served.value)
  {
    var gate := CreateEventGate(errors, user);
    if gate.Some? {
      return gate.value, None;
    }
    var outcome := svc.CreateEvent(body, user.value.id, answer);
    res, served := CreateEventReply(outcome), Some(outcome);
  }

  /** `PUT /events/:id`. */
  method HandleUpdateEvent(svc: ES.EventService, id: EventId, patch: EventPatch,
                           user: Option<Principal>, ok: bool)
    returns (res: Response, ghost served: Option<Result<Option<EventDoc>, ES.Error>>)
    requires svc.db.Valid()
    modifies svc.db`events, svc.cal
    ensures svc.db.Valid()
    ensures served.None? <==> user.None?
    ensures served.None? ==>
      && res == Response(500, MessageJson("Server error"))
      && svc.db.events == old(svc.db.events)
      && svc.cal.calls == old(svc.cal.calls) && svc.cal.events == old(svc.cal.events)
    ensures served.Some? ==> res == UpdateEventReply(served.value)
  {
    var gate := UserGate(user);
    if gate.Some? {
      return gate.value, None;
    }
    var outcome := svc.UpdateEvent(id, patch, user.value.id, ok);
    res, served := UpdateEventReply(outcome), Some(outcome);
  }

  /** `DELETE /events/:id`. */
  method HandleDeleteEvent(svc: ES.EventService, id: EventId, user: Option<Principal>, ok: bool)
    returns (res: Response, ghost served: Option<Outcome<ES.Error>>)
    requires svc.db.Valid()
    modifies svc.db`events, svc.cal
    ensures svc.db.Valid()
    ensures served.None? <==> user.None?
    ensures served.None? ==>
      && res == Response(500, MessageJson("Server error"))
      && svc.db.events == old(svc.db.events)
      && svc.cal.calls == old(svc.cal.calls) && svc.cal.events == old(svc.cal.events)
    ensures served.Some? ==> res == DeleteEventReply(served.value)
  {
    var gate := UserGate(user);
    if gate.Some? {
      return gate.value, None;
    }
    var outcome := svc.DeleteEvent(id, user.value.id, ok);
    res, served := DeleteEventReply(outcome), Some(outcome);
  }
}
