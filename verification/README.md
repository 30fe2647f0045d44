# Presence tracking and message fan-out of a realtime chat, in Dafny

This project models two parts of a realtime chat application and proves
properties of them.

1. **The client's presence hook** (`components/hooks/use-presence.ts`).
   It decides whether the user is ONLINE, IDLE, DND or OFFLINE from user
   activity, page visibility and three timers: a 5-minute idle timer, a
   1-second debounced IDLE to ONLINE promotion and a 2-minute heartbeat.
   It tells the server through `PATCH /api/users/status`. Every request goes
   through a guard in `updateStatus`. The guard skips a request that would
   not change the status. It drops any request within 10 seconds of the
   previous one, whatever the status. `statusRef` changes only when a
   request succeeds. On page unload, an OFFLINE beacon bypasses that guard.
   - `PresenceSpec` (presence_spec.dfy) is the reference model. A `Record`
     holds the five refs, the throttle's closure variable `lastEventTime`,
     whether the listeners are registered, and logs of the status requests
     and beacons sent. Each handler is a function from record to record.
     Time is an explicit `now`. A timer is an optional deadline that can
     fire once `now` reaches it. The result of the axios request is a
     `delivered` flag. `Step` and `Run` replay any sequence of events. The
     lemmas are about these traces.
   - `PresenceHook` (presence_hook.dfy) is the hook as an object. Its fields
     are the refs, and its methods update them in place, step by step, as the
     hook does. Each method is proved to leave the fields exactly as the
     matching `PresenceSpec` function says. Each event handler (the
     constructor, `UpdateStatus`, the listeners, the timer callbacks, `Mount`
     and `Cleanup`) also keeps the invariant `PresenceSpec.Inv`. `BeginUpdate`
     (the synchronous half of updateStatus) and `ResetIdleTimer` are steps
     inside a handler and do not promise the invariant on their own.
2. **The direct-message POST handler** (`pages/api/socket/global-direct-messages/index.ts`).
   It checks the method, profile, conversation id, content and participant,
   in that order. It then stores the message, broadcasts it on the event
   `chat:<conversationId>:messages` and returns it. `DirectMessages`
   (direct_messages.dfy) models the handler as a total function. The function
   takes the request and the results of the profile lookup, the conversation
   table and the insert, any of which may throw. It returns the status, the
   JSON body and the broadcast, if there is one. `JsValues` (js_values.dfy)
   gives the JavaScript semantics the guards use: truthiness, `String.prototype.trim`
   with its exact set of white-space characters, and `content?.trim()`.

Where the intended behaviour and the code differ, the model follows the code.
Lemmas show each difference:

- The hook's comment at use-presence.ts:38 reads "Debounce the ONLINE status
  update", and the promotion is scheduled only from IDLE. The intended
  behaviour is that it does nothing once the status has left IDLE. The callback calls `updateStatus("ONLINE")` without checking.
  `PromotionOverridesDnd` gives a concrete run in which a user who chose DND
  becomes ONLINE when the promotion fires. The user is mounted at 10 s. The
  idle timer makes the user IDLE at 310 s. A click at 320 s schedules the
  promotion for 321 s, and the user chooses DND at 320.5 s. The override
  needs a late timer: the promotion must fire at least 10 s after the DND
  request, which is 9.5 s past its own deadline. A sleeping device or a
  throttled background tab can delay a timer that much. The same lemma proves
  that a promotion firing earlier leaves DND in place, because the cooldown
  drops it.
- DND is a status the user chooses, and tab switches are meant to leave it
  alone. Neither branch of the visibility handler checks for DND, so
  switching tabs moves a DND user to IDLE or ONLINE (`HiddenTabLeavesDnd`,
  `VisibleTabLeavesDnd`). Only the idle timer and the heartbeat check for DND
  (`DndKeptByAutomaticEvents`).
- The cleanup is meant to publish OFFLINE when the hook is torn down. It
  calls `updateStatus("OFFLINE")`, which is subject to the cooldown and can
  be dropped. Only the `beforeunload` beacon always goes out
  (`CleanupInsideCooldown`).
- A request without a session is meant to get 401 before anything else about
  it matters. The code first awaits the profile lookup and destructures
  `req.body`. Either of these can throw, which gives 500 before the 401 check
  (`EarlyThrowsPrecedeProfileCheck`). Content that is neither a string, null
  nor undefined makes `content?.trim()` throw, which gives 500 (`ContentRule`).

## Model

| member | source | states |
|---|---|---|
| PresenceSpec.Initial | components/hooks/use-presence.ts:9-13 | the refs' initial values (OFFLINE, no timers, no request yet) satisfy the invariant |
| PresenceSpec.UpdateStatus | components/hooks/use-presence.ts:15-29 | a self-transition and a call within 10 s of the last request change nothing at all, so a dropped intent is not queued for later; otherwise exactly one request is logged, lastApiCall becomes now, and the status becomes the target only if the request succeeded; timers and activity are untouched |
| PresenceSpec.ResetIdleTimer | components/hooks/use-presence.ts:31-54 | lastActivity becomes now and the single idle deadline is replaced by now + 5 min; the debounce deadline is replaced by now + 1 s only when the status is IDLE, and is otherwise left as it was; nothing else changes |
| PresenceSpec.IdleTimerFires | components/hooks/use-presence.ts:49-53 | a timer that is not due does nothing; a due one is spent and asks for IDLE only from ONLINE, so every other status (DND included) is unchanged; the promotion, the heartbeat, the activity times, the listeners and the beacons are untouched |
| PresenceSpec.DebounceFires | components/hooks/use-presence.ts:43-45 | a timer that is not due does nothing; a due promotion is spent and asks for ONLINE from any status, without an IDLE check; the other timers, the activity times, the listeners and the beacons are untouched |
| PresenceSpec.HeartbeatTicks | components/hooks/use-presence.ts:102-109 | a due tick schedules the next one and asks for IDLE exactly when the status is neither OFFLINE nor DND and more than 5 min (strictly) have passed since the last activity; otherwise nothing is published; the other timers, the activity times, the listeners and the beacons are untouched |
| PresenceSpec.HandleActivity | components/hooks/use-presence.ts:64-70 | an event within 5 s of the last accepted one, or while unmounted, changes nothing; an accepted one records its time and resets the idle timer, replacing the promotion with one 1 s later exactly when the status is IDLE; activity never publishes, and the heartbeat, the listeners and the beacons are untouched |
| PresenceSpec.HandleVisibilityChange | components/hooks/use-presence.ts:77-84 | unmounted, nothing changes; a hidden page asks for IDLE and leaves the activity time and the timers alone; a visible page asks for ONLINE and resets the idle timer, judging the debounce on the status from before the request; the heartbeat, the throttle time, the listeners and the beacons are untouched |
| PresenceSpec.HandleBeforeUnload | components/hooks/use-presence.ts:89-94 | the OFFLINE beacon is logged whatever the status and the cooldown, and nothing else changes |
| PresenceSpec.Mount | components/hooks/use-presence.ts:56-109 | the effect asks for ONLINE, registers the listeners with a fresh throttle, starts the idle timer and the heartbeat, schedules a promotion exactly when the status is IDLE, and leaves the beacons alone |
| PresenceSpec.Cleanup | components/hooks/use-presence.ts:111-123 | the cleanup unregisters and cancels all three timers, then asks for OFFLINE under the ordinary guards; the activity time, the throttle time and the beacons are kept |
| PresenceSpec.StepKeepsInv | components/hooks/use-presence.ts:15-109 | every handler keeps the invariant: requests 10 s apart, lastApiCall is the latest request, the status is the latest successful target, the idle deadline is 5 min after the last activity, and no timer is pending while unmounted |
| PresenceSpec.RunKeepsInv | components/hooks/use-presence.ts:22-28 | along any trace the status is always the target of the latest successful request (OFFLINE if none): nothing but a successful request changes it |
| PresenceSpec.RunExtendsLogs | components/hooks/use-presence.ts:22-24 | along any trace the request and beacon logs only grow: each log after the run extends the log before it, so nothing sent is retracted |
| PresenceSpec.SpacedApart | components/hooks/use-presence.ts:19-23 | in a spaced request log, requests k places apart are at least k × 10 s apart |
| PresenceSpec.RequestsRateLimited | components/hooks/use-presence.ts:19-23 | along any trace, any two requests are at least 10 s apart, whatever statuses they carry |
| PresenceSpec.DndKeptByAutomaticEvents | components/hooks/use-presence.ts:49-53 | activity, idle-timer, heartbeat and beacon events never move a user out of DND |
| PresenceSpec.HiddenTabLeavesDnd | components/hooks/use-presence.ts:78-79 | with the cooldown passed, hiding the page moves a DND user to IDLE |
| PresenceSpec.VisibleTabLeavesDnd | components/hooks/use-presence.ts:80-83 | with the cooldown passed, showing the page moves a DND user to ONLINE |
| PresenceSpec.PromotionOverridesDnd | components/hooks/use-presence.ts:39-46 | a concrete run from a fresh hook (mount, two quiet heartbeats, the idle timer, a click, then DND) in which a promotion scheduled while IDLE is pending when the user chooses DND; firing within 10 s of the DND request it leaves DND, and firing 10 s or more after it (a late timer) it makes the user ONLINE |
| PresenceSpec.PromotionFollowsLastActivity | components/hooks/use-presence.ts:39-46 | while IDLE, each accepted activity moves the pending promotion to 1 s after itself, so the last activity counts, not the first |
| PresenceSpec.NoPromotionWithinDebounce | components/hooks/use-presence.ts:43-45 | from IDLE, nothing happens to the promotion before 1 s after the accepted activity |
| PresenceSpec.IdleExactlyOnce | components/hooks/use-presence.ts:49-53 | an ONLINE user whose idle timer fires becomes IDLE once; the spent timer then does nothing |
| PresenceSpec.CleanupInsideCooldown | components/hooks/use-presence.ts:89-122 | within the cooldown the cleanup's OFFLINE request is dropped (status and log unchanged), while the beacon is still sent |
| PresenceHook.PresenceHook.constructor | components/hooks/use-presence.ts:9-13 | the object starts in `Initial(now)` and is valid |
| PresenceHook.PresenceHook.BeginUpdate | components/hooks/use-presence.ts:16-24 | the synchronous half of updateStatus: it reports whether a request went out, which is exactly when the target differs and the cooldown has passed |
| PresenceHook.PresenceHook.UpdateStatus | components/hooks/use-presence.ts:15-29 | in-place updateStatus, equal to `PresenceSpec.UpdateStatus`, keeps the invariant |
| PresenceHook.PresenceHook.ResetIdleTimer | components/hooks/use-presence.ts:31-54 | in-place resetIdleTimer, equal to `PresenceSpec.ResetIdleTimer` |
| PresenceHook.PresenceHook.HandleActivity | components/hooks/use-presence.ts:65-70 | in-place throttled handler, equal to `PresenceSpec.HandleActivity`, keeps the invariant |
| PresenceHook.PresenceHook.HandleVisibilityChange | components/hooks/use-presence.ts:77-84 | in-place visibility handler, equal to `PresenceSpec.HandleVisibilityChange`, keeps the invariant |
| PresenceHook.PresenceHook.IdleTimerFires | components/hooks/use-presence.ts:49-53 | in-place idle callback, equal to `PresenceSpec.IdleTimerFires`, keeps the invariant |
| PresenceHook.PresenceHook.DebounceFires | components/hooks/use-presence.ts:43-45 | in-place promotion callback, equal to `PresenceSpec.DebounceFires`, keeps the invariant |
| PresenceHook.PresenceHook.HeartbeatTicks | components/hooks/use-presence.ts:102-109 | in-place heartbeat, equal to `PresenceSpec.HeartbeatTicks`, keeps the invariant |
| PresenceHook.PresenceHook.HandleBeforeUnload | components/hooks/use-presence.ts:89-94 | in-place beacon handler, equal to `PresenceSpec.HandleBeforeUnload`, keeps the invariant |
| PresenceHook.PresenceHook.Mount | components/hooks/use-presence.ts:56-109 | in-place effect body, equal to `PresenceSpec.Mount`, keeps the invariant |
| PresenceHook.PresenceHook.Cleanup | components/hooks/use-presence.ts:111-123 | in-place cleanup, equal to `PresenceSpec.Cleanup`, keeps the invariant |
| JsValues.TrimStart | pages/api/socket/global-direct-messages/index.ts:27 | the result is a suffix of the input, does not start with white space, and only white space was removed |
| JsValues.TrimEnd | pages/api/socket/global-direct-messages/index.ts:27 | the result is a prefix of the input, does not end with white space, and only white space was removed |
| JsValues.TrimEmptyIffBlank | pages/api/socket/global-direct-messages/index.ts:27 | trim gives the empty (falsy) string exactly when every character is white space |
| JsValues.OptionalTrim | pages/api/socket/global-direct-messages/index.ts:27 | `content?.trim()` is undefined exactly for null or undefined content, and a string exactly for string content, empty exactly when the content is blank; anything else throws |
| DirectMessages.ChannelKey | pages/api/socket/global-direct-messages/index.ts:72 | the key is `chat:`, then the conversation id, then `:messages` |
| DirectMessages.KeyRoundTrip | pages/api/socket/global-direct-messages/index.ts:72 | the conversation id is read back from its key |
| DirectMessages.KeyParseRoundTrip | pages/api/socket/global-direct-messages/index.ts:72 | any string that reads as a key is the key of the id read from it |
| DirectMessages.KeyInjective | pages/api/socket/global-direct-messages/index.ts:72 | two keys are equal exactly when the conversation ids are equal |
| DirectMessages.FindConversation | pages/api/socket/global-direct-messages/index.ts:32-44 | a found conversation is in the table, has the id and has the profile as profileOne or profileTwo; none is found only when no row has both |
| DirectMessages.Transform | pages/api/socket/global-direct-messages/index.ts:63-70 | the payload keeps the message and adds a member whose id and profileId are both the message's profileId, with its profile |
| DirectMessages.Handle | pages/api/socket/global-direct-messages/index.ts:6-80 | the status is one of 200, 400, 401, 404, 405, 500; 405 exactly for non-POST; every non-200 has an error body and no broadcast; a 200 passed every input check and carries the row the insert returned (its id and createdAt) with the posted content and fileUrl as given, that conversation id, the profile's id and the profile itself, with member.id = member.profileId = profileId and member.profile the profile, and is broadcast once on that conversation's key exactly when the socket server is present |
| DirectMessages.MethodCheckedFirst | pages/api/socket/global-direct-messages/index.ts:10-12 | a method other than POST is 405 whatever the session and database say |
| DirectMessages.ProfileCheckedBeforeInput | pages/api/socket/global-direct-messages/index.ts:19-21 | a POST without a profile is 401 whatever the conversation id and content |
| DirectMessages.EarlyThrowsPrecedeProfileCheck | pages/api/socket/global-direct-messages/index.ts:14-16 | a failing profile lookup or a null body is 500, before the 401 check |
| DirectMessages.ConversationIdCheckedBeforeContent | pages/api/socket/global-direct-messages/index.ts:23-25 | an absent or empty conversation id is 400 whatever the content |
| DirectMessages.ContentRule | pages/api/socket/global-direct-messages/index.ts:27-29 | after the earlier checks, the result is 400 exactly when the content is absent or blank and fileUrl is falsy; content that is neither a string, null nor undefined is 500 |
| DirectMessages.Deliver | pages/api/socket/global-direct-messages/index.ts:31-79 | after the input checks: 404 exactly when the table was read and no row with that id has the profile as a participant; 500 exactly when the lookup throws or a participant's insert throws; otherwise 200 with the inserted row's id and createdAt, the given content and fileUrl, that conversation id, and the profile's id and profile (also as member.profile), broadcast on its key exactly when the socket server is present |
| DirectMessages.ParticipantRule | pages/api/socket/global-direct-messages/index.ts:31-48 | for a request that passes the input checks (non-blank content, a truthy fileUrl, or both), the result is 404, with no broadcast, exactly when no conversation with that id has the profile as a participant |
| DirectMessages.SuccessBroadcastsOnce | pages/api/socket/global-direct-messages/index.ts:50-75 | a request that passes the input checks (non-blank content, a truthy fileUrl, or both), from a participant, whose message is stored, gets 200; it is broadcast exactly when the socket server is present, and the response is the same either way |
| DirectMessages.RejectionCreatesNothing | pages/api/socket/global-direct-messages/index.ts:10-48 | a 400, 401, 404 or 405 response is the same whatever the insert would do and whether or not the socket server is present: create and emit are never reached |
| DirectMessages.LateThrowsAre500 | pages/api/socket/global-direct-messages/index.ts:32-79 | after the input checks, a throwing findFirst, or a throwing create for a participant, is 500 "Internal Error" with no broadcast |

## Left out

- The connection manager (`components/providers/socket-provider.tsx`) is not part of this model. Its reconnection, back-off, timeout and transport upgrade are options handed to the socket.io client library, and what remains is UI state and a latency probe.
- `components/ui/user-avatar.tsx` is UI rendering and is not part of this model.
- Asynchrony: a status request's answer is modelled as arriving at the end of the handler that sent it. So `statusRef` is set after the rest of that handler ran, and before any other event. Other interleavings of answers and events are not modelled. The model thus assumes that each answer arrives before the next event of any kind. axios sets no timeout, so a slow answer can arrive after later events. For example, an ONLINE user hides the page at 0 s, and the IDLE request is still pending when the page is shown at 12 s. `statusRef` still reads ONLINE, so `updateStatus("ONLINE")` returns at once and `resetIdleTimer` schedules no promotion. The IDLE answer arriving at 15 s then leaves an active user IDLE until their next accepted activity. In the model the IDLE answer arrives at 0 s, so at 12 s the ONLINE request goes out and the user ends ONLINE. The model does not capture the late answer.
- Timers: a fire event before its deadline does nothing, and timer lateness is arbitrary. The heartbeat's next tick is taken as 2 minutes after the tick that ran, not as a fixed grid from the mount.
- The browser's listener registration and removal are the single `listening` flag. React's pairing of effect and cleanup is the precondition of `Mount` (not mounted) and `Cleanup` (mounted). In a trace, an event out of that order does nothing.
- `console.error` logging, the HTTP response writing, and the `navigator.sendBeacon` and axios transports are left out. Their effects are the logged requests, the beacon log and the `delivered` flag.
- The socket.io broadcast itself is left out: which clients receive the event, and clients' handlers for that event name. The model returns the event name and payload given to `io.emit`.
- Persistence: the session lookup, `findFirst` and `create` are inputs. The conversation table is a sequence, and a database error is `Throws`. The stored row's `content` and `fileUrl` are the request values as given. Column types and Prisma's validation of non-string values are not modelled. Such a rejection appears only as `Throws`. The included `profileOne` and `profileTwo` are not used by the handler and are not modelled.
- A repeated `conversationId` query parameter (an array value) is not modelled: the query value is an optional string.
- JSON numbers are integers in `JsValues.Json`, so NaN and fractions are not modelled. Truthiness of the values that occur is exact.
