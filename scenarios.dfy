/** Two request sequences, proved from the contracts of the service and the
    handlers alone. */
module Scenarios {
  import opened Wrappers
  import opened Models
  import opened Google
  import opened Http
  import ES = EventService
  import EventController

  /** Create, then list the owner's events.  The created event is listed
      with the submitted fields; when only the remote mirror failed, the
      local event is listed all the same. */
  method CreateThenList(svc: ES.EventService, data: EventData, caller: Principal, answer: InsertAnswer)
    returns (created: Result<EventDoc, ES.Error>, listed: Response)
    requires svc.db.Valid()
    modifies svc.db`events, svc.db`nextEventId, svc.cal
    ensures svc.db.Valid()
    ensures listed.Response? && listed.status == 200 && listed.body.EventsJson?
    ensures created.Success? ==>
      && created.value.id in listed.body.events
      && listed.body.events[created.value.id] == created.value.event
      && created.value.event.(googleCalendarId := data.googleCalendarId) == NewEvent(data, caller.id)
    ensures var id := ES.NewDocumentId(data, old(svc.db.nextEventId));
      created.Failure? && created.error != ES.EventValidationFailed && created.error != ES.DuplicateKey ==>
      id in listed.body.events && listed.body.events[id] == NewEvent(data, caller.id)
  {
    created := svc.CreateEvent(data, caller.id, answer);
    listed := EventController.GetEvents(svc.db.events, Some(caller));
  }

  /** Create with a remote id, then update: the remote update goes to that
      id and carries the updated fields, authenticated as the caller. */
  method CreateThenUpdate(svc: ES.EventService, data: EventData, caller: Principal, rid: RemoteId,
                          patch: EventPatch, ok: bool)
    returns (updated: Result<Option<EventDoc>, ES.Error>)
    requires svc.db.Valid() && caller.id in svc.db.users
    requires MeetsEventSchema(NewEvent(data, caller.id))
    requires ES.NewDocumentId(data, svc.db.nextEventId) !in svc.db.events
    requires rid != "" && patch.googleCalendarId.None?
    modifies svc.db`events, svc.db`nextEventId, svc.cal
    ensures svc.db.Valid()
    ensures var stored := ApplyPatch(ES.Synced(NewEvent(data, caller.id), Some(rid)), patch);
      && |svc.cal.calls| == |old(svc.cal.calls)| + 2
      && svc.cal.calls[|svc.cal.calls| - 1]
         == UpdateCall(ES.CreateOAuthClient(svc.db.users[caller.id]), ES.PrimaryCalendar, rid,
                       ES.CreateGoogleEventObject(stored))
      && (ok ==> updated.Success? && updated.value.Some? && updated.value.value.event == stored)
  {
    var created := svc.CreateEvent(data, caller.id, Inserted(Some(rid)));
    ApplyPatchKeepsRemoteId(created.value.event, patch);
    updated := svc.UpdateEvent(created.value.id, patch, caller.id, ok);
  }

  /** The same update body sent twice: the stored event is as after the
      first, and when it is mirrored the two remote updates are identical. */
  method UpdateTwice(svc: ES.EventService, id: EventId, patch: EventPatch, caller: UserId, ok1: bool, ok2: bool)
    returns (first: Result<Option<EventDoc>, ES.Error>, second: Result<Option<EventDoc>, ES.Error>)
    requires svc.db.Valid()
    modifies svc.db`events, svc.cal
    ensures svc.db.Valid()
    ensures id in old(svc.db.events) ==>
      var e := ApplyPatch(old(svc.db.events)[id], patch);
      && svc.db.events == old(svc.db.events)[id := e]
      && (ok1 && ok2 ==> first == second)
      && (HasRemoteId(e) && caller in svc.db.users ==>
            && |svc.cal.calls| == |old(svc.cal.calls)| + 2
            && svc.cal.calls[|svc.cal.calls| - 1] == svc.cal.calls[|svc.cal.calls| - 2])
  {
    first := svc.UpdateEvent(id, patch, caller, ok1);
    if id in old(svc.db.events) {
      ApplyPatchLaws(old(svc.db.events)[id], patch);
    }
    second := svc.UpdateEvent(id, patch, caller, ok2);
  }

  /** An update with an empty body leaves the table as it was and, for a
      mirrored event, re-sends its stored body. */
  method UpdateWithEmptyBody(svc: ES.EventService, id: EventId, caller: UserId, ok: bool)
    returns (updated: Result<Option<EventDoc>, ES.Error>)
    requires svc.db.Valid()
    modifies svc.db`events, svc.cal
    ensures svc.db.Valid()
    ensures svc.db.events == old(svc.db.events)
    ensures id in old(svc.db.events) && HasRemoteId(old(svc.db.events)[id]) && caller in svc.db.users ==>
      var e := old(svc.db.events)[id];
      svc.cal.calls == old(svc.cal.calls)
        + [UpdateCall(ES.CreateOAuthClient(svc.db.users[caller]), ES.PrimaryCalendar, e.googleCalendarId.value,
                      ES.CreateGoogleEventObject(e))]
  {
    var empty := EventPatch(None, None, None, None, None, None, None, None, None);
    if id in svc.db.events {
      ApplyPatchLaws(svc.db.events[id], empty);
    }
    updated := svc.UpdateEvent(id, empty, caller, ok);
  }
}
