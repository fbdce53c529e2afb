# Remote-stream bookkeeping of the Telnyx video React Native demo

The demo app joins a Telnyx video room. It keeps a map from participant id to
a renderable `MediaStream` and shows the map's values in a grid. The room's
session reports events, and the app reacts to five of them:

- `connected` subscribes to every stream already in the room that the local
  participant does not own.
- `participant_joined` only logs.
- `stream_published` subscribes unless the publisher's origin is `"local"`.
- `subscription_started` bundles the stream's audio and video tracks into a
  `MediaStream` and upserts it under the participant id.
- `subscription_ended` deletes the participant id from the map, whatever the
  stream key.

The map lives in React state, but the handlers are registered once. Every
handler call therefore goes through the `updateStreamMap` and
`deleteFromStreamMap` closures of the first render, which hold that render's
map object. Both helpers change that captured object in place, then publish a
fresh copy as the new state. The model proves that the captured map and the
published copy always hold the same entries in the same order. So each publish
is exactly an upsert or a delete applied to the previous published state, and
a removed participant never comes back when a different participant is
upserted later.

Files:

- `ordered_map.dfy`, module `OrderedMap`: the value of a JavaScript `Map` with
  string keys (keys in first-insertion order, plus a table), with `get`, `set`,
  `delete` and `values()`, and lemmas about the rendered order.
- `js_map.dfy`, module `JsMaps`: the mutable `Map` object (class `JsMap`),
  whose methods change it in place.
- `room.dfy`, module `Room`: snapshots, events, the `addSubscription` command,
  the subscription policy, and a pure reducer `Step`/`Run` over the published
  map and the command log.
- `app.dfy`, module `App`: class `App` with the captured map, the published
  state, the command log, the two helpers and one method per handler.
  `Dispatch` is proved equal to the reducer. Three scenario methods run fresh
  `App` objects through short event sequences.

## Model

| member | source | states |
|---|---|---|
| `OrderedMap.Empty` | src/App.tsx:17 | the initial state is a well-formed map in which every lookup is undefined |
| `OrderedMap.Set` | src/App.tsx:19 | after `set(k, v)`, `get(k)` is `v` and every other key's lookup is unchanged; the key order stays well formed |
| `OrderedMap.Delete` | src/App.tsx:22 | after `delete(k)`, `get(k)` is undefined and every other key's lookup is unchanged; deleting an absent key changes nothing |
| `OrderedMap.Values` | src/App.tsx:235 | the rendered list holds each key's value, one per key, in first-insertion order |
| `OrderedMap.OneValuePerKey` | src/App.tsx:17-19 | the map holds at most one entry per participant id: the rendered list has exactly one element per key |
| `OrderedMap.SetNewAppends` | src/App.tsx:235 | upserting a new participant appends its stream at the end of the rendered list |
| `OrderedMap.SetExistingKeepsPosition` | src/App.tsx:18-19 | overwriting a participant already present keeps the key order, and only that position of the rendered list changes |
| `OrderedMap.SetTwice` | src/App.tsx:18-19 | two upserts for one participant leave a single entry that holds the later stream |
| `OrderedMap.DeleteClosesGap` | src/App.tsx:21-26 | deleting a present participant removes exactly its stream from the rendered list; the others keep their order |
| `OrderedMap.DeleteIdempotent` | src/App.tsx:22-24 | the second delete, on the copy, changes nothing |
| `JsMaps.JsMap.Empty` | src/App.tsx:17 | `new Map()` is a well-formed empty map |
| `JsMaps.JsMap.Copy` | src/App.tsx:23 | `new Map(m)` is a new map with the same entries in the same order |
| `JsMaps.JsMap.Set` | src/App.tsx:19 | the in-place `set` leaves the object holding `Set` of its old entries |
| `JsMaps.JsMap.Delete` | src/App.tsx:22 | the in-place `delete` leaves the object holding `Delete` of its old entries, and answers whether the key was present |
| `Room.CatchUp` | src/App.tsx:91-100 | every catch-up command requests audio and video for a stream of the snapshot that the local participant does not own |
| `Room.CatchUpAppend` | src/App.tsx:91-100 | catch-up follows stream order: the commands for two runs of streams are the commands for each, concatenated |
| `Room.CatchUpComplete` | src/App.tsx:91-100 | every stream not owned by the local participant gets a subscription |
| `Room.CatchUpAllRemote` | src/App.tsx:91-100 | a snapshot of N remote streams gives exactly N subscriptions |
| `Room.CatchUpCount` | src/App.tsx:91-100 | a snapshot that mixes local and remote streams gives exactly as many subscriptions as it has streams not owned by the local participant |
| `Room.CatchUpAllLocal` | src/App.tsx:92-94 | a snapshot of only local streams gives no subscription |
| `Room.ConnectedScenario` | src/App.tsx:91-100 | with A remote and B local and the stream (A, "cam"), exactly one subscription to A's camera is issued |
| `Room.Emitted` | src/App.tsx:110-123 | a published stream gives no command exactly when its participant's origin is "local", and otherwise one subscription with audio and video; connected gives exactly the catch-up commands of its snapshot; the other events give no command |
| `Room.Step` | src/App.tsx:79-159 | per event: joined changes nothing; connected and published leave the map alone; started maps the participant to its combined stream and leaves other entries; ended removes the participant and leaves other entries; the log gains exactly the event's commands |
| `Room.Run` | src/App.tsx:79-159 | applying any sequence of events keeps the map well formed |
| `Room.EmittedNeverSelf` | src/App.tsx:91-123 | no command of a single event names the local participant, provided a stream_published snapshot that lists the local participant gives it origin "local" |
| `Room.NeverSubscribesToSelf` | src/App.tsx:91-123 | over any sequence of events, no command names the local participant, provided each stream_published snapshot that lists the local participant gives it origin "local"; earlier commands are kept |
| `Room.StartThenEnd` | src/App.tsx:140-158 | started then ended for one participant: present with its stream after the start, absent after the end whatever the stream key, other entries unchanged |
| `App.App.constructor` | src/App.tsx:17 | the state starts as an empty map, and that same object is the one the handlers capture |
| `App.App.Rendered` | src/App.tsx:235 | the list the grid receives is the values of the map the handlers captured, one per key, in insertion order |
| `App.App.UpdateStreamMap` | src/App.tsx:18-20 | a fresh copy is published; it equals the previous published state with the key upserted, and it agrees with the captured map |
| `App.App.DeleteFromStreamMap` | src/App.tsx:21-26 | a fresh copy is published; it equals the previous published state without the key, and it agrees with the captured map |
| `App.App.OnConnected` | src/App.tsx:79-101 | the loop appends exactly the catch-up commands, in stream order, and leaves the map alone |
| `App.App.OnParticipantJoined` | src/App.tsx:104-107 | neither the map nor the command log changes |
| `App.App.OnStreamPublished` | src/App.tsx:110-128 | no command for a publisher of origin "local"; otherwise one subscription with audio and video; the map is unchanged |
| `App.App.OnSubscriptionStarted` | src/App.tsx:131-149 | the published map becomes the previous one with the participant mapped to its audio and video tracks |
| `App.App.OnSubscriptionEnded` | src/App.tsx:153-159 | the published map becomes the previous one without the participant, whatever the stream key |
| `App.App.Dispatch` | src/App.tsx:79-159 | each registered handler changes the published map and the log exactly as the reducer `Room.Step` does |
| `App.PublishStartEndScenario` | src/App.tsx:110-159 | published, started, ended for A: one subscription request; the grid shows A's stream while it runs and is empty after it ends |
| `App.TwoStreamsOneParticipantScenario` | src/App.tsx:140-148 | two started subscriptions for one participant leave one grid entry, holding the later stream |
| `App.RemovedStaysRemovedScenario` | src/App.tsx:18-26 | after A ends, a later upsert of D does not bring A back: the grid shows D alone |

## Left out

- `getToken` (src/App.tsx:38-61) is an HTTP request and JSON parsing, so it is not modelled. It also reads `tokenReceived.data.token` in `finally` even when the fetch failed.
- `initialize`, `room.connect`, `room.addStream` and `setRoom` (src/App.tsx:70-76, 161, 214) are calls into the video SDK. `room.addSubscription` is modelled only as a `Command` appended to the log. `room.getParticipantStream` is modelled as its answer, carried in the `SubscriptionStarted` event.
- `verifyPermissions` and `onPressPublish` (src/App.tsx:164-223) are platform permission prompts and camera capture, so they are left out. The local publication is therefore not modelled.
- The `.env` check (src/App.tsx:31-33) is configuration.
- Logging is left out, and so is the `participants.forEach` of the connected handler (src/App.tsx:84-88), which only logs.
- The JSX, `FlatGrid`, `RTCView` and styles (src/App.tsx:225-308) are UI and are not modelled.
- `async`/`await` interleaving is concurrency. Each event is applied whole, in order. A rejected `addSubscription` is not modelled: the command is logged when it is issued.
- `MediaStream` object identity is not modelled. A handle is the value of its two tracks, so the grid's `toURL()` keys are not modelled.
- App.App.OnParticipantJoined: a participant missing from the snapshot would crash the handler at src/App.tsx:106. The model requires the participant to be in the snapshot.
- App.App.OnStreamPublished: a participant missing from the snapshot would crash the handler at src/App.tsx:114. The model requires the participant to be in the snapshot.
- App.App.OnSubscriptionStarted: `getParticipantStream` answering `undefined` would crash the handler at src/App.tsx:143. The model always has an answer.
- The code keeps no per-stream subscription state and has no check against a second subscribe for the same stream. It sends no unsubscribe when a subscription ends; it only deletes from the map on `subscription_ended`. The model follows the code.
