# Calendar event sync backend — a Dafny model

This models the decision logic of a calendar-event backend. Users sign in through Google's OAuth2 flow. The backend keeps an event table and a user table, and mirrors every event into the owner's Google Calendar. The model covers four parts:

- **Event service** (`event_service.dfy`). Every operation writes locally first and calls the remote calendar second. Create stores the event, inserts it remotely and records the returned id. Update overwrites the stored fields, then updates the remote copy, but only if the event has a remote id. Delete removes the event, then deletes the remote copy, again only if it has a remote id. The remote calls authenticate with the stored tokens of the user id the *caller* passes in. It is not the event's stored owner.
- **OAuth callback** (`auth_service.dfy`). It makes three checks in a fixed order: code present, access token obtained, e-mail obtained. It then finds or creates the user by e-mail, stores the token pair and issues a session token that expires after one day. A known user's refresh token is overwritten with `''` when the provider sends none.
- **Event controller** (`event_controller.dfy`). This maps a service outcome to a status and a body. A missing event gives 404 on update but 500 on delete.
- **Auth middleware** (`auth_middleware.dfy`). The token is the `Authorization` header with the first occurrence of `Bearer ` removed, wherever it stands. A missing or empty token gives 401. A failed signature check gives 500. Otherwise the request is passed on with the looked-up user, which may be null.

The stores and the remote services are abstract:

- The event and user tables are maps in a `Database` class. Ids are natural numbers taken from counters.
- The remote calendar is a `Calendar` class. It holds a map from remote id to event body and a log of every request sent to it.
- Each remote answer is a parameter. The calendar's answers are `InsertAnswer` and `ok: bool`. The token exchange, the user-info request and `jwt.verify` are functions from request to answer.
- A signed session token is represented by its claims (user id, expiry).

Files: `wrappers.dfy` (Option/Result/Outcome, JavaScript truthiness), `models.dfy` (Event, User, Database), `google.dfy` (remote body, credentials, call log), `http.dfy` (responses), the four core files above, and `scenarios.dfy` (request sequences proved from the contracts).

The model follows the code as written, including these behaviours a reader might not expect:

- The remote start time is the event's `date` alone; the `time` string is never sent (`BodyIgnoresLocalFields`).
- Deleting a missing event answers 500; only the update handler answers 404 for a missing event.
- The callback in `src/services/auth.service.ts` answers 200 with a JSON `{ token }`.
- A new user stores the refresh token exactly as the provider returned it, possibly missing.
- `GET /events` with a null `req.user` throws before the handler's `try`, so the request gets no response (`Response.NoResponse`).

Three more concern request bodies and the schema:

- The schema's `required` string fields reject `''` and missing values when a new document is saved. This affects the event's `title` and `time` on create, and the user's `name` on first sign-in. `findByIdAndUpdate` runs no validators, so an update is never rejected this way.
- An update body may set any field, `googleCalendarId` and `userId` included.
- A create body may carry an `_id`. The new document is saved under it, and a save under an id already in use fails with a duplicate key before any remote call.

## Model

| member | source | states |
|---|---|---|
| `Wrappers.OrEmpty` | src/services/event.service.ts:126-127 | the fallback to `''` gives `''` exactly when the value is missing or empty, and the value otherwise |
| `Models.FindById` | src/services/event.service.ts:9 | the lookup succeeds exactly when the id is in the user table, and returns that record |
| `Models.FindByEmail` | src/services/auth.service.ts:58 | returns a user holding that e-mail, or none when no user holds it |
| `Models.NewEvent` | src/services/event.service.ts:87 | the new document's owner is the caller, a client-sent remote id is kept, and it meets the schema exactly when title and time are non-empty |
| `Models.NewEventKeepsFields` | src/services/event.service.ts:87 | no submitted field is lost: bodies that give the same document for one owner differ at most in their `_id` |
| `Models.ApplyPatch` | src/services/event.service.ts:100 | every field the update body sends is set, every other field is kept, and those two facts determine the result |
| `Models.MeetsEventSchema` | src/models/event.model.ts:15-25 | the schema's required-string check passes exactly when title and time are both non-empty |
| `Models.ApplyPatchLaws` | src/services/event.service.ts:100 | an empty update body leaves the event unchanged; applying a body twice equals applying it once |
| `Models.ApplyPatchKeepsRemoteId` | src/services/event.service.ts:100 | a body without `googleCalendarId` keeps the stored remote id, and so whether the event is mirrored |
| `Google.Calendar.Insert` | src/services/event.service.ts:19-22 | appends exactly one insert request to the log; stores the body under the returned id when there is one |
| `Google.Calendar.Update` | src/services/event.service.ts:50-54 | appends exactly one update request for that remote id; on success the remote body is replaced |
| `Google.Calendar.Delete` | src/services/event.service.ts:76-79 | appends exactly one delete request for that remote id; on success the remote event is gone |
| `EventService.CreateOAuthClient` | src/services/event.service.ts:123-130 | the client's tokens are the user's stored tokens, with `''` for any missing or empty one |
| `EventService.Attendees` | src/services/event.service.ts:146 | one attendee per participant, in order, carrying that participant's address |
| `EventService.EmailsOfAttendees` | src/services/event.service.ts:146 | reading the addresses back from the attendee list gives exactly the participant list |
| `EventService.CreateGoogleEventObject` | src/services/event.service.ts:132-148 | summary is the title and description the description; start is the event date; end is start plus duration times 3,600,000 ms; both use time zone `Asia/Kolkata`; attendee addresses are the participants in order |
| `EventService.BodyIgnoresLocalFields` | src/services/event.service.ts:132-148 | the remote body depends only on title, description, date, duration and participants, not on `time`, notes, owner or remote id |
| `EventService.Synced` | src/services/event.service.ts:24 | after a remote insert the event's `googleCalendarId` is the returned id, or `''` if none came back; nothing else changes |
| `EventService.EventService.AddEventToGoogleCalendar` | src/services/event.service.ts:7-29 | unknown user: fails with "User not found", no remote call, nothing stored. Otherwise: exactly one insert request with the user's tokens and the event's body. A failed insert stores nothing; a successful one persists the event with the returned id |
| `EventService.EventService.UpdateEventInGoogleCalendar` | src/services/event.service.ts:31-58 | no remote id: does nothing, with no user lookup and no call. Unknown user: "User not found" and no call. Otherwise: exactly one update request under the event's remote id, carrying its current body |
| `EventService.EventService.DeleteEventFromGoogleCalendar` | src/services/event.service.ts:60-83 | unknown user: "User not found" and no call. Otherwise: exactly one delete request for that remote id, with the user's tokens |
| `EventService.EventService.CreateEvent` | src/services/event.service.ts:85-92 | a new event under the client-sent `_id` or else a fresh id, carrying the submitted fields with `userId` set to the caller, is stored before any remote call and stays stored if the remote step fails. On success exactly one insert request is made and the stored and returned event carry the returned remote id (or `''`). A document the schema refuses, or an `_id` already in use (duplicate key), changes nothing and makes no remote call |
| `EventService.EventService.UpdateEvent` | src/services/event.service.ts:94-108 | unknown id: returns null, leaves the table unchanged and makes no remote call. Otherwise the stored event becomes the patched one. If it has a remote id, exactly one update request carries the post-update body under that id, with the caller's tokens (not the owner's) |
| `EventService.EventService.DeleteEvent` | src/services/event.service.ts:110-121 | unknown id: "Event not found", with no change and no remote call. Otherwise the event is removed first. Exactly one delete request with its remote id is made iff that id is non-empty and the caller is a known user, and zero otherwise. An unknown caller then gets "User not found" |
| `AuthService.GoogleAuth` | src/services/auth.service.ts:11-22 | redirects (302) with offline access, prompt `consent`, and exactly the calendar, userinfo.email and userinfo.profile scopes in that order |
| `AuthService.CheckLogin` | src/services/auth.service.ts:29-53 | a missing code fails with the code message whatever the provider would say; then the exchange's own error, then the access-token message. A rejected user-info request fails with its own message, user info without an e-mail with the user-info message, and a fetched e-mail succeeds with those tokens, that e-mail and name. Success implies a code, an access token and an e-mail were all obtained |
| `AuthService.NoEmailFails` | src/services/auth.service.ts:51-53 | user info without an e-mail fails with 'Failed to retrieve user information from Google.' |
| `AuthService.ProviderCalls` | src/services/auth.service.ts:29-50 | no provider request without a code. Otherwise the code exchange comes first; the user-info request follows exactly when an access token was obtained, and carries that token |
| `AuthService.Refreshed` | src/services/auth.service.ts:69-73 | a known user keeps e-mail, name and googleId; both tokens are overwritten, and a refresh token the provider omitted becomes `''` |
| `AuthService.NewUser` | src/services/auth.service.ts:60-68 | a new user has the e-mail, the name, googleId = id_token, and the access and refresh tokens as returned |
| `AuthService.GoogleAuthCallback` | src/services/auth.service.ts:24-85 | any failed check gives 500 'Authentication failed' with that message and leaves the user table unchanged. A known e-mail refreshes that one user's tokens only, with no second user. An unseen e-mail creates exactly one user under a fresh id, unless the schema refuses a missing name. Success answers with a token for that user's id and expiry '1d'. The provider requests made are exactly ProviderCalls |
| `EventController.CreateEventGate` | src/controllers/event.controller.ts:12-22 | validation errors give 400 with the error list. Otherwise a null user gives 500 'Server error'. The service is called exactly when there are no errors and there is a user |
| `EventController.CreateEventReply` | src/controllers/event.controller.ts:21-28 | status 201 with the event exactly on success; any error gives 500 'Server error' |
| `EventController.FindByOwner` | src/controllers/event.controller.ts:34 | exactly the events whose `userId` is the caller's id, as stored |
| `EventController.StoredEventIsListed` | src/controllers/event.controller.ts:34 | a stored event is listed for its owner, unchanged |
| `EventController.GetEvents` | src/controllers/event.controller.ts:31-41 | 200 with exactly the caller's events; a null user leaves the request unanswered |
| `EventController.UserGate` | src/controllers/event.controller.ts:47-48 | a null user gives 500 'Server error' before the service is called; otherwise the service is called |
| `EventController.UpdateEventReply` | src/controllers/event.controller.ts:47-59 | a null result gives 404 'Event not found', and only a null result does; an event gives 200 with it; an error gives 500 |
| `EventController.DeleteEventReply` | src/controllers/event.controller.ts:66-73 | success gives 204 with an empty body, and only success does; any error, event-not-found included, gives 500 'Server error'; never 404 |
| `EventController.HandleCreateEvent` | src/controllers/event.controller.ts:10-29 | when the gate answers, no event is stored and no remote call is made; otherwise the response is the reply to the service's outcome |
| `EventController.HandleUpdateEvent` | src/controllers/event.controller.ts:43-60 | without a user: 500, with nothing changed and no call; otherwise the reply to the service's outcome |
| `EventController.HandleDeleteEvent` | src/controllers/event.controller.ts:62-74 | without a user: 500, with nothing changed and no call; otherwise the reply to the service's outcome |
| `AuthMiddleware.IndexFrom` | src/routes/middleware/auth.ts:10 | the first position at or after `k` where the pattern occurs, or none when it occurs nowhere there |
| `AuthMiddleware.IndexOf` | src/routes/middleware/auth.ts:10 | the least position where the pattern occurs; none exactly when it occurs nowhere |
| `AuthMiddleware.ReplaceFirst` | src/routes/middleware/auth.ts:10 | no occurrence: the string unchanged. Otherwise the length changes by the replacement's, the text before the first occurrence is kept, and putting the pattern back gives the original |
| `AuthMiddleware.ReplaceFirstSplit` | src/routes/middleware/auth.ts:10 | for any `p + pat + q` with no earlier occurrence, the result is `p + rep + q` |
| `AuthMiddleware.StripBearer` | src/routes/middleware/auth.ts:10 | the token equals the header exactly when the header holds no `Bearer `; otherwise it is seven characters shorter |
| `AuthMiddleware.StripBearerFirst` | src/routes/middleware/auth.ts:10 | for every header `p + "Bearer " + q` with no earlier `Bearer `, the token is `p + q` |
| `AuthMiddleware.StripBearerPrefix` | src/routes/middleware/auth.ts:10 | `Bearer ` + t yields t |
| `AuthMiddleware.StripBearerAbsent` | src/routes/middleware/auth.ts:10 | a header without `Bearer ` anywhere is used as the token unchanged |
| `AuthMiddleware.StripBearerInside` | src/routes/middleware/auth.ts:10 | the first occurrence is removed even mid-header: "Token Bearer abc" yields "Token abc" |
| `AuthMiddleware.StripBearerEmpty` | src/routes/middleware/auth.ts:10-11 | the token is empty exactly when the header is empty or is exactly `Bearer ` |
| `AuthMiddleware.Token` | src/routes/middleware/auth.ts:10-11 | the token is missing exactly when the header is, and falsy exactly when the header is missing, empty or `Bearer ` |
| `AuthMiddleware.Auth` | src/routes/middleware/auth.ts:5-24 | 401 'Unauthorized' exactly for a missing, empty or bare-`Bearer ` header; 500 'Unauthorized' exactly when verification of a non-empty token fails; otherwise next is called once, with `req.user` set to the lookup of the decoded id, null included |
| `Scenarios.CreateThenList` | src/controllers/event.controller.ts:21-35 | after a create, listing the caller's events shows the created event with the submitted fields; if only the remote step failed, the local event is listed |
| `Scenarios.CreateThenUpdate` | src/services/event.service.ts:85-108 | create with a remote id, then update: the last remote request is an update to that id carrying the updated fields, with the caller's tokens |
| `Scenarios.UpdateTwice` | src/services/event.service.ts:94-108 | sending the same update body twice stores the event as after the first; when mirrored, the two remote updates are identical, and two successes return the same event |
| `Scenarios.UpdateWithEmptyBody` | src/services/event.service.ts:94-108 | an empty update body leaves the event table unchanged and, for a mirrored event, re-sends exactly its stored body |

## Left out

- Database, Google API, HTTP client and JWT library internals. The stores are maps, and the remote services are answers passed in. A failing local save or query is not modelled, so the 500 branch of `getEvents` (src/controllers/event.controller.ts:37-40) cannot be taken in the model.
- Id casting: ids are abstract natural numbers, so a malformed id string (a cast error and a 500 in the code) has no counterpart.
- Dates are integer milliseconds and durations whole hours. `toISOString` rendering, invalid dates, fractional durations and time-zone semantics are floating point and locale based, so they are not modelled; the time-zone name is a constant.
- The process-wide `oauth2Client` mutated at src/services/auth.service.ts:39 is shared state across requests, a concurrency concern. The unused client at line 41 sends no request.
- The check at src/services/auth.service.ts:55-57 cannot fire after the one at 51-53, so it is not modelled as a branch.
- `jwt.sign` and `jwt.verify` are represented by the token's claims and by a function from token to decoded id. A verified payload without an `id` is not modelled.
- Schema validation covers only the required strings on a new document; type casting of request fields is not modelled. An update body can set fields but cannot unset them, and an `_id` in an update body is not modelled.
- The remote calendar is one map for all users' primary calendars. An insert whose response carries no id is recorded in the request log but not in the map, since its remote id is unknown.
- `getEvents` returns the caller's events as a map keyed by id; storage order is not modelled.
- Routing wiring (src/routes/index.ts, src/routes/events/*.ts), the `/health` route, src/controllers/auth.controller.ts, logging and configuration are not part of this model.
- Concurrency between requests is not modelled; each operation runs to completion.
- EventController.HandleCreateEvent: when the service is called, the contract only says the response is the reply to the service's outcome; the service's own effects are stated by `EventService.EventService.CreateEvent`.
- EventController.HandleUpdateEvent: likewise, the effects of a service call are stated by `EventService.EventService.UpdateEvent`.
- EventController.HandleDeleteEvent: likewise, the effects of a service call are stated by `EventService.EventService.DeleteEvent`.
