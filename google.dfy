/** The remote calendar service, seen from this backend: the event body it
    is sent, the credentials it is called with, and the calls it receives.
    What the service answers is not visible here, so each call takes the
    answer as a parameter. */
module Google {
  import opened Wrappers

  type RemoteId = string

  datatype Attendee = Attendee(email: string)

  /** An instant (milliseconds since the epoch) and the zone it is shown in. */
  datatype EventDateTime = EventDateTime(dateTime: int, timeZone: string)

  /** The request body of an insert or update. */
  datatype GEvent = GEvent(
    summary: string,
    description: Option<string>,
    start: EventDateTime,
    end: EventDateTime,
    attendees: seq<Attendee>)

  /** The token pair an API client is authenticated with. */
  datatype Credentials = Credentials(accessToken: string, refreshToken: string)

  /** One request sent to the calendar API. */
  datatype RemoteCall =
    | InsertCall(auth: Credentials, calendarId: string, body: GEvent)
    | UpdateCall(auth: Credentials, calendarId: string, eventId: RemoteId, body: GEvent)
    | DeleteCall(auth: Credentials, calendarId: string, eventId: RemoteId)

  /** The answer to an insert: it failed, or it succeeded and its response
      may or may not carry the new event's id. */
  datatype InsertAnswer = Inserted(id: Option<RemoteId>) | InsertFailed

  function AfterInsert(events: map<RemoteId, GEvent>, body: GEvent, answer: InsertAnswer): map<RemoteId, GEvent> {
    if answer.Inserted? && Truthy(answer.id) then events[answer.id.value := body] else events
  }

  function AfterUpdate(events: map<RemoteId, GEvent>, id: RemoteId, body: GEvent, ok: bool): map<RemoteId, GEvent> {
    if ok then events[id := body] else events
  }

  function AfterDelete(events: map<RemoteId, GEvent>, id: RemoteId, ok: bool): map<RemoteId, GEvent> {
    if ok then events - {id} else events
  }

  /** The remote calendars: the events known under an id, and the log of
      every request made, in order. */
  class Calendar {
    var events: map<RemoteId, GEvent>
    var calls: seq<RemoteCall>

    constructor ()
      ensures events == map[] && calls == []
    {
      events := map[];
      calls := [];
    }

    method Insert(auth: Credentials, calendarId: string, body: GEvent, answer: InsertAnswer)
      modifies this
      ensures calls == old(calls) + [InsertCall(auth, calendarId, body)]
      ensures events == AfterInsert(old(events), body, answer)
    {
      calls := calls + [InsertCall(auth, calendarId, body)];
      events := AfterInsert(events, body, answer);
    }

    method Update(auth: Credentials, calendarId: string, id: RemoteId, body: GEvent, ok: bool)
      modifies this
      ensures calls == old(calls) + [UpdateCall(auth, calendarId, id, body)]
      ensures events == AfterUpdate(old(events), id, body, ok)
    {
      calls := calls + [UpdateCall(auth, calendarId, id, body)];
      events := AfterUpdate(events, id, body, ok);
    }

    method Delete(auth: Credentials, calendarId: string, id: RemoteId, ok: bool)
      modifies this
      ensures calls == old(calls) + [DeleteCall(auth, calendarId, id)]
      ensures events == AfterDelete(old(events), id, ok)
    {
      calls := calls + [DeleteCall(auth, calendarId, id)];
      events := AfterDelete(events, id, ok);
    }
  }
}
