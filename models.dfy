/** The two persisted collections: events and users.  Document ids are
    abstract (natural numbers handed out by the database), dates are
    integer milliseconds and durations whole hours. */
module Models {
  import opened Wrappers

  type EventId = nat
  type UserId = nat

  /** A stored event document (without its `_id`, which is the key it is
      stored under). */
  datatype Event = Event(
    title: string,
    description: Option<string>,
    participants: seq<string>,
    date: int,
    time: string,
    duration: int,
    sessionNotes: Option<string>,
    googleCalendarId: Option<string>,
    userId: UserId)

  /** An event document together with its id, as the service returns it. */
  datatype EventDoc = EventDoc(id: EventId, event: Event)

  /** The fields of a create request body; the owner is added by the
      service.  A client may also send a `googleCalendarId`, and an `_id`
      (`clientId`), which then becomes the new document's id. */
  datatype EventData = EventData(
    clientId: Option<EventId>,
    title: string,
    description: Option<string>,
    participants: seq<string>,
    date: int,
    time: string,
    duration: int,
    sessionNotes: Option<string>,
    googleCalendarId: Option<string>)

  /** An update request body: every field may be absent, and every field
      present is set on the stored document, owner and remote id included. */
  datatype EventPatch = EventPatch(
    title: Option<string>,
    description: Option<string>,
    participants: Option<seq<string>>,
    date: Option<int>,
    time: Option<string>,
    duration: Option<int>,
    sessionNotes: Option<string>,
    googleCalendarId: Option<string>,
    userId: Option<UserId>)

  datatype User = User(
    email: string,
    name: string,
    googleId: Option<string>,
    accessToken: Option<string>,
    refreshToken: Option<string>)

  /** What the authentication middleware attaches to a request. */
  datatype Principal = Principal(id: UserId, user: User)

  /** `new Event({ ...eventData, userId })`: the submitted fields with the
      owner set to the given user; a submitted `_id` is the document's key,
      not one of its fields. */
  function NewEvent(d: EventData, owner: UserId): (r: Event)
    ensures r.userId == owner
    ensures r.googleCalendarId == d.googleCalendarId
    ensures MeetsEventSchema(r) <==> d.title != "" && d.time != ""
  {
    Event(d.title, d.description, d.participants, d.date, d.time, d.duration,
          d.sessionNotes, d.googleCalendarId, owner)
  }

  /** No submitted field is lost: two create bodies that give the same
      document for the same owner differ at most in their `_id`. */
  lemma NewEventKeepsFields(d: EventData, d': EventData, owner: UserId)
    requires NewEvent(d, owner) == NewEvent(d', owner)
    ensures d.(clientId := None) == d'.(clientId := None)
  {
  }

  function Patched<T>(current: T, p: Option<T>): T {
    if p.Some? then p.value else current
  }

  /** Every field the update body sends has the sent value in `e`. */
  predicate SetsSentFields(e: Event, p: EventPatch) {
    && (p.title.Some? ==> e.title == p.title.value)
    && (p.description.Some? ==> e.description == p.description)
    && (p.participants.Some? ==> e.participants == p.participants.value)
    && (p.date.Some? ==> e.date == p.date.value)
    && (p.time.Some? ==> e.time == p.time.value)
    && (p.duration.Some? ==> e.duration == p.duration.value)
    && (p.sessionNotes.Some? ==> e.sessionNotes == p.sessionNotes)
    && (p.googleCalendarId.Some? ==> e.googleCalendarId == p.googleCalendarId)
    && (p.userId.Some? ==> e.userId == p.userId.value)
  }

  /** Every field the update body does not send is as in `before`. */
  predicate KeepsUnsentFields(before: Event, after: Event, p: EventPatch) {
    && (p.title.None? ==> after.title == before.title)
    && (p.description.None? ==> after.description == before.description)
    && (p.participants.None? ==> after.participants == before.participants)
    && (p.date.None? ==> after.date == before.date)
    && (p.time.None? ==> after.time == before.time)
    && (p.duration.None? ==> after.duration == before.duration)
    && (p.sessionNotes.None? ==> after.sessionNotes == before.sessionNotes)
    && (p.googleCalendarId.None? ==> after.googleCalendarId == before.googleCalendarId)
    && (p.userId.None? ==> after.userId == before.userId)
  }

  /** The document `findByIdAndUpdate(id, patch, { new: true })` returns:
      the sent fields are set and the others kept, and that determines it. */
  function ApplyPatch(e: Event, p: EventPatch): (r: Event)
    ensures SetsSentFields(r, p) && KeepsUnsentFields(e, r, p)
    ensures forall r' :: SetsSentFields(r', p) && KeepsUnsentFields(e, r', p) ==> r' == r
  {
    Event(Patched(e.title, p.title),
          if p.description.Some? then p.description else e.description,
          Patched(e.participants, p.participants),
          Patched(e.date, p.date),
          Patched(e.time, p.time),
          Patched(e.duration, p.duration),
          if p.sessionNotes.Some? then p.sessionNotes else e.sessionNotes,
          if p.googleCalendarId.Some? then p.googleCalendarId else e.googleCalendarId,
          Patched(e.userId, p.userId))
  }

  /** The string fields the event schema marks `required: true`. */
  datatype StringField = Title | Time

  const RequiredStrings: seq<StringField> := [Title, Time]

  function StringValue(e: Event, f: StringField): string {
    match f
    case Title => e.title
    case Time => e.time
  }

  /** A `required: true` string field rejects a missing or empty value
      when a new document is saved. */
  predicate MeetsEventSchema(e: Event)
    ensures MeetsEventSchema(e) <==> e.title != "" && e.time != ""
  {
    assert RequiredStrings[0] == Title && RequiredStrings[1] == Time;
    forall i :: 0 <= i < |RequiredStrings| ==> StringValue(e, RequiredStrings[i]) != ""
  }

  /** The event is mirrored remotely: `if (event.googleCalendarId)`. */
  predicate HasRemoteId(e: Event) {
    Truthy(e.googleCalendarId)
  }

  /** An empty update body changes nothing; applying the same body twice
      is the same as applying it once (a field-wise overwrite). */
  lemma ApplyPatchLaws(e: Event, p: EventPatch)
    ensures ApplyPatch(e, EventPatch(None, None, None, None, None, None, None, None, None)) == e
    ensures ApplyPatch(ApplyPatch(e, p), p) == ApplyPatch(e, p)
  {
  }

  /** An update body without `googleCalendarId` keeps the remote handle. */
  lemma ApplyPatchKeepsRemoteId(e: Event, p: EventPatch)
    requires p.googleCalendarId.None?
    ensures ApplyPatch(e, p).googleCalendarId == e.googleCalendarId
    ensures HasRemoteId(ApplyPatch(e, p)) <==> HasRemoteId(e)
  {
  }

  ghost predicate EmailsUnique(users: map<UserId, User>) {
    forall a, b :: a in users && b in users && users[a].email == users[b].email ==> a == b
  }

  /** `User.findById(id)`. */
  function FindById(users: map<UserId, User>, id: UserId): (r: Option<Principal>)
    ensures r.Some? <==> id in users
    ensures r.Some? ==> r.value.id == id && r.value.user == users[id]
  {
    if id in users then Some(Principal(id, users[id])) else None
  }

  /** `User.findOne({ email })`. */
  ghost function FindByEmail(users: map<UserId, User>, email: string): (r: Option<UserId>)
    ensures r.Some? ==> r.value in users && users[r.value].email == email
    ensures r.None? ==> forall id :: id in users ==> users[id].email != email
  {
    if exists id :: id in users && users[id].email == email then
      var id :| id in users && users[id].email == email; Some(id)
    else
      None
  }

  /** The document database: the event and user collections, and the
      counters from which new document ids are drawn. */
  class Database {
    var events: map<EventId, Event>
    var users: map<UserId, User>
    var nextEventId: nat
    var nextUserId: nat

    /** Ids in use were all handed out before; the unique index on
        `email` holds. */
    ghost predicate Valid()
      reads this
    {
      && (forall id :: id in events ==> id < nextEventId)
      && (forall id :: id in users ==> id < nextUserId)
      && EmailsUnique(users)
    }

    constructor ()
      ensures Valid()
      ensures events == map[] && users == map[]
    {
      events := map[];
      users := map[];
      nextEventId := 0;
      nextUserId := 0;
    }
  }
}
