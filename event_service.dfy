/** The event service: local writes first, then the matching call to the
    remote calendar, authenticated with a user's stored token pair. */
module EventService {
  import opened Wrappers
  import opened Models
  import opened Google

  const TimeZone := "Asia/Kolkata"
  const MsPerHour := 60 * 60 * 1000
  const PrimaryCalendar := "primary"

  /** Why a service call failed. */
  datatype Error =
    | UserNotFound           // 'User not found'
    | EventNotFound          // 'Event not found'
    | EventValidationFailed  // the schema refused the new document
    | DuplicateKey           // a client-sent `_id` is already in use
    | RemoteCallFailed       // the calendar API rejected the request

  /** The API client for a user: missing tokens become empty strings. */
  function CreateOAuthClient(u: User): (c: Credentials)
    ensures c.accessToken == "" <==> !Truthy(u.accessToken)
    ensures c.refreshToken == "" <==> !Truthy(u.refreshToken)
    ensures Truthy(u.accessToken) ==> c.accessToken == u.accessToken.value
    ensures Truthy(u.refreshToken) ==> c.refreshToken == u.refreshToken.value
  {
    Credentials(OrEmpty(u.accessToken), OrEmpty(u.refreshToken))
  }

  /** `participants.map((email) => ({ email }))`. */
  function Attendees(participants: seq<string>): (r: seq<Attendee>)
    ensures |r| == |participants|
    ensures forall i :: 0 <= i < |r| ==> r[i] == Attendee(participants[i])
  {
    seq(|participants|, i requires 0 <= i < |participants| => Attendee(participants[i]))
  }

  /** The e-mail addresses of an attendee list, in order. */
  function Emails(attendees: seq<Attendee>): seq<string> {
    if attendees == [] then [] else [attendees[0].email] + Emails(attendees[1..])
  }

  /** The attendee list gives back exactly the participants, in order. */
  lemma {:induction false} EmailsOfAttendees(participants: seq<string>)
    ensures Emails(Attendees(participants)) == participants
  {
    if participants != [] {
      assert Attendees(participants)[1..] == Attendees(participants[1..]);
      EmailsOfAttendees(participants[1..]);
    }
  }

  /** The remote event body for a local event. */
  function CreateGoogleEventObject(e: Event): (g: GEvent)
    ensures g.summary == e.title && g.description == e.description
    ensures g.start.dateTime == e.date
    ensures g.end.dateTime - g.start.dateTime == e.duration * 3_600_000
    ensures g.start.timeZone == "Asia/Kolkata" && g.end.timeZone == "Asia/Kolkata"
    ensures Emails(g.attendees) == e.participants
  {
    EmailsOfAttendees(e.participants);
    GEvent(e.title, e.description,
           EventDateTime(e.date, TimeZone),
           EventDateTime(e.date + e.duration * MsPerHour, TimeZone),
           Attendees(e.participants))
  }

  /** The body depends on title, description, date, duration and
      participants only: the time-of-day string, the notes, the owner and
      the remote id are not sent. */
  lemma BodyIgnoresLocalFields(e: Event, e': Event)
    requires e.title == e'.title && e.description == e'.description
    requires e.date == e'.date && e.duration == e'.duration
    requires e.participants == e'.participants
    ensures CreateGoogleEventObject(e) == CreateGoogleEventObject(e')
  {
  }

  /** The event as stored after a successful remote insert: the returned
      id, or `''` when the response carried none. */
  function Synced(e: Event, returned: Option<RemoteId>): (r: Event)
    ensures r.googleCalendarId == Some(OrEmpty(returned))
    ensures r.(googleCalendarId := e.googleCalendarId) == e
  {
    e.(googleCalendarId := Some(OrEmpty(returned)))
  }

  /** The id a new document is saved under: the `_id` the client sent, or
      else one the database has not handed out yet. */
  function NewDocumentId(d: EventData, next: EventId): (id: EventId)
    ensures d.clientId.Some? ==> id == d.clientId.value
    ensures d.clientId.None? ==> id == next
  {
    if d.clientId.Some? then d.clientId.value else next
  }

  /** The service works on the database and on the remote calendars; it
      keeps no state of its own. */
  class EventService {
    const db: Database
    const cal: Calendar

    constructor (db: Database, cal: Calendar)
      ensures this.db == db && this.cal == cal
    {
      this.db := db;
      this.cal := cal;
    }

    /** Inserts the event remotely for `userId`, then records the returned
        id on the stored document `id`. */
    method AddEventToGoogleCalendar(userId: UserId, id: EventId, event: Event, answer: InsertAnswer)
      returns (r: Result<Event, Error>)
      requires db.Valid() && id < db.nextEventId
      modifies db`events, cal
      ensures db.Valid()
      ensures userId !in db.users ==>
        && r == Failure(UserNotFound)
        && db.events == old(db.events)
        && cal.calls == old(cal.calls) && cal.events == old(cal.events)
      ensures userId in db.users ==>
        var body := CreateGoogleEventObject(event);
        && cal.calls == old(cal.calls) + [InsertCall(CreateOAuthClient(db.users[userId]), PrimaryCalendar, body)]
        && cal.events == AfterInsert(old(cal.events), body, answer)
        && (answer.InsertFailed? ==> r == Failure(RemoteCallFailed) && db.events == old(db.events))
        && (answer.Inserted? ==>
              r == Success(Synced(event, answer.id)) && db.events == old(db.events)[id := r.value])
    {
      var user := FindById(db.users, userId);
      if user.None? {
        return Failure(UserNotFound);
      }
      var auth := CreateOAuthClient(user.value.user);
      var body := CreateGoogleEventObject(event);
      cal.Insert(auth, PrimaryCalendar, body, answer);
      if answer.InsertFailed? {
        return Failure(RemoteCallFailed);
      }
      var synced := Synced(event, answer.id);
      db.events := db.events[id := synced];
      r := Success(synced);
    }

    /** Sends the event's current body to its remote copy; does nothing at
        all when the event has no remote id. */
    method UpdateEventInGoogleCalendar(userId: UserId, event: Event, ok: bool)
      returns (r: Outcome<Error>)
      modifies cal
      ensures !HasRemoteId(event) ==>
        r == Pass && cal.calls == old(cal.calls) && cal.events == old(cal.events)
      ensures HasRemoteId(event) && userId !in db.users ==>
        r == Fail(UserNotFound) && cal.calls == old(cal.calls) && cal.events == old(cal.events)
      ensures HasRemoteId(event) && userId in db.users ==>
        var body := CreateGoogleEventObject(event);
        var rid := event.googleCalendarId.value;
        && cal.calls == old(cal.calls) + [UpdateCall(CreateOAuthClient(db.users[userId]), PrimaryCalendar, rid, body)]
        && cal.events == AfterUpdate(old(cal.events), rid, body, ok)
        && r == (if ok then Pass else Fail(RemoteCallFailed))
    {
      if !HasRemoteId(event) {
        return Pass;
      }
      var user := FindById(db.users, userId);
      if user.None? {
        return Fail(UserNotFound);
      }
      var auth := CreateOAuthClient(user.value.user);
      var body := CreateGoogleEventObject(event);
      cal.Update(auth, PrimaryCalendar, event.googleCalendarId.value, body, ok);
      r := if ok then Pass else Fail(RemoteCallFailed);
    }

    /** Deletes the remote event `rid` for `userId`. */
    method DeleteEventFromGoogleCalendar(userId: UserId, rid: RemoteId, ok: bool)
      returns (r: Outcome<Error>)
      modifies cal
      ensures userId !in db.users ==>
        r == Fail(UserNotFound) && cal.calls == old(cal.calls) && cal.events == old(cal.events)
      ensures userId in db.users ==>
        && cal.calls == old(cal.calls) + [DeleteCall(CreateOAuthClient(db.users[userId]), PrimaryCalendar, rid)]
        && cal.events == AfterDelete(old(cal.events), rid, ok)
        && r == (if ok then Pass else Fail(RemoteCallFailed))
    {
      var user := FindById(db.users, userId);
      if user.None? {
        return Fail(UserNotFound);
      }
      var auth := CreateOAuthClient(user.value.user);
      cal.Delete(auth, PrimaryCalendar, rid, ok);
      r := if ok then Pass else Fail(RemoteCallFailed);
    }

    /** Stores a new event owned by `userId`, then mirrors it remotely.  A
        remote failure leaves the local event in place. */
    method CreateEvent(data: EventData, userId: UserId, answer: InsertAnswer)
      returns (r: Result<EventDoc, Error>)
      requires db.Valid()
      modifies db`events, db`nextEventId, cal
      ensures db.Valid()
      ensures var e := NewEvent(data, userId);
        !MeetsEventSchema(e) ==>
          && r == Failure(EventValidationFailed)
          && db.events == old(db.events) && db.nextEventId == old(db.nextEventId)
          && cal.calls == old(cal.calls) && cal.events == old(cal.events)
      ensures data.clientId.None? ==> old(db.nextEventId) !in old(db.events)
      ensures var e := NewEvent(data, userId);
        var id := NewDocumentId(data, old(db.nextEventId));
        MeetsEventSchema(e) && id in old(db.events) ==>
          && r == Failure(DuplicateKey)
          && db.events == old(db.events) && db.nextEventId == old(db.nextEventId)
          && cal.calls == old(cal.calls) && cal.events == old(cal.events)
      ensures var e := NewEvent(data, userId);
        var id := NewDocumentId(data, old(db.nextEventId));
        MeetsEventSchema(e) && id !in old(db.events) ==>
          && old(db.nextEventId) <= db.nextEventId && id < db.nextEventId
          && (userId !in db.users ==>
                && r == Failure(UserNotFound)
                && db.events == old(db.events)[id := e]
                && cal.calls == old(cal.calls) && cal.events == old(cal.events))
          && (userId in db.users ==>
                var body := CreateGoogleEventObject(e);
                && cal.calls == old(cal.calls) + [InsertCall(CreateOAuthClient(db.users[userId]), PrimaryCalendar, body)]
                && cal.events == AfterInsert(old(cal.events), body, answer)
                && (answer.InsertFailed? ==>
                      r == Failure(RemoteCallFailed) && db.events == old(db.events)[id := e])
                && (answer.Inserted? ==>
                      && r == Success(EventDoc(id, Synced(e, answer.id)))
                      && db.events == old(db.events)[id := Synced(e, answer.id)]))
    {
      var event := NewEvent(data, userId);
      if !MeetsEventSchema(event) {
        return Failure(EventValidationFailed);
      }
      var id := NewDocumentId(data, db.nextEventId);
      if id in db.events {
        return Failure(DuplicateKey);
      }
      if db.nextEventId <= id {
        db.nextEventId := id + 1;
      }
      db.events := db.events[id := event];
      var added := AddEventToGoogleCalendar(userId, id, event, answer);
      if added.Failure? {
        return Failure(added.error);
      }
      r := Success(EventDoc(id, added.value));
    }

    /** Overwrites the fields of event `id` given in `patch`, then refreshes
        its remote copy as the caller `userId` (not as the stored owner). */
    method UpdateEvent(id: EventId, patch: EventPatch, userId: UserId, ok: bool)
      returns (r: Result<Option<EventDoc>, Error>)
      requires db.Valid()
      modifies db`events, cal
      ensures db.Valid()
      ensures id !in old(db.events) ==>
        && r == Success(None)
        && db.events == old(db.events)
        && cal.calls == old(cal.calls) && cal.events == old(cal.events)
      ensures id in old(db.events) ==>
        var e := ApplyPatch(old(db.events)[id], patch);
        var updated := Success(Some(EventDoc(id, e)));
        && db.events == old(db.events)[id := e]
        && (!HasRemoteId(e) ==>
              r == updated && cal.calls == old(cal.calls) && cal.events == old(cal.events))
        && (HasRemoteId(e) && userId !in db.users ==>
              r == Failure(UserNotFound) && cal.calls == old(cal.calls) && cal.events == old(cal.events))
        && (HasRemoteId(e) && userId in db.users ==>
              var body := CreateGoogleEventObject(e);
              var rid := e.googleCalendarId.value;
              && cal.calls == old(cal.calls) + [UpdateCall(CreateOAuthClient(db.users[userId]), PrimaryCalendar, rid, body)]
              && cal.events == AfterUpdate(old(cal.events), rid, body, ok)
              && r == (if ok then updated else Failure(RemoteCallFailed)))
    {
      if id !in db.events {
        return Success(None);
      }
      var event := ApplyPatch(db.events[id], patch);
      db.events := db.events[id := event];
      var synced := UpdateEventInGoogleCalendar(userId, event, ok);
      if synced.Fail? {
        return Failure(synced.error);
      }
      r := Success(Some(EventDoc(id, event)));
    }

    /** Removes event `id`, then deletes its remote copy when it has one. */
    method DeleteEvent(id: EventId, userId: UserId, ok: bool)
      returns (r: Outcome<Error>)
      requires db.Valid()
      modifies db`events, cal
      ensures db.Valid()
      ensures id !in old(db.events) ==>
        && r == Fail(EventNotFound)
        && db.events == old(db.events)
        && cal.calls == old(cal.calls) && cal.events == old(cal.events)
      ensures id in old(db.events) ==>
        var e := old(db.events)[id];
        && db.events == old(db.events) - {id}
        && (!HasRemoteId(e) ==>
              r == Pass && cal.calls == old(cal.calls) && cal.events == old(cal.events))
        && (HasRemoteId(e) && userId !in db.users ==>
              r == Fail(UserNotFound) && cal.calls == old(cal.calls) && cal.events == old(cal.events))
        && (HasRemoteId(e) && userId in db.users ==>
              var rid := e.googleCalendarId.value;
              && cal.calls == old(cal.calls) + [DeleteCall(CreateOAuthClient(db.users[userId]), PrimaryCalendar, rid)]
              && cal.events == AfterDelete(old(cal.events), rid, ok)
              && r == (if ok then Pass else Fail(RemoteCallFailed)))
    {
      if id !in db.events {
        return Fail(EventNotFound);
      }
      var event := db.events[id];
      db.events := db.events - {id};
      if HasRemoteId(event) {
        r := DeleteEventFromGoogleCalendar(userId, event.googleCalendarId.value, ok);
      } else {
        r := Pass;
      }
    }
  }
}
