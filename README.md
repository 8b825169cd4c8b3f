# Room membership of the Janus group video chat

This project models the room-membership state machine of the React component
`App` in `src/App.tsx`, a browser client for the gateway's video-room plugin.
The component holds a publisher plugin handle, its local media flags, a
table of remote participants, and one subscriber handle per remote feed. It
changes that state in response to the plugin's messages, the user's intents
(join, leave, mute audio, turn video off), and the completion callbacks of
the gateway library.

The model is one class, `VideoRoom.App`, whose fields are the component's
state: `status`, `room`, `username`, `isJoined`, `participants`,
`isPublishing`, `isAudioEnabled`, `isVideoEnabled`, `pluginHandle`, `feeds`,
and an `outbox`. Each callback or intent is a method. Every call the
component makes into the gateway library is appended to the `outbox` as an
effect:
- a request body sent on a handle (`join`, `configure`, `start`, `leave`, with its SDP if any);
- a detach;
- an attach of a subscriber for a feed;
- a request for an offer or an answer.

Each method states the whole new state as an update of the old one
(`Snapshot()`). Each method also keeps the object invariant `Valid()`:
- every stored subscriber handle belongs to a row of the table;
- every row is keyed by its own id;
- while publishing, a publisher handle exists and the last `configure` sent carries both current media flags.

The updates of the participants table are written as pure reducers in module
`Membership`, as the component writes them (`{...prev, ...newParticipants}`,
copy-then-delete, `{...prev[id], stream}`). The lemmas about them cover:
- which row wins when an id is listed twice;
- that an announcement resets a known participant's stream;
- that presence after any history of events is decided by the last event naming the id.

Module `Ids` models `toString` and `parseInt` on participant ids. It proves
the round trip that makes a subscriber's `feed` equal the publisher's numeric
id.

Module `Scenarios` holds client methods. They use only the contracts of `App`
and show these flows:
- joining an empty room;
- a publisher who arrives and then leaves twice;
- toggling the media flags, then leaving;
- callbacks that arrive after the user left.

Where the intended design of the system differs from `App.tsx`, the model
follows `App.tsx`:
- Mute toggles are guarded only by "a handle exists and `isPublishing`". There is no separate negotiating state.
- An announcement of a publisher that is already known is not a no-op. Its row is replaced and its stream is reset.
- A `joinRoom` failure has no handling of its own. An error event only changes the status.
- A remote stream that arrives after the participant left, or after the user left the room, puts the row back. That row has only a stream, with no id or display. The handle is stored again in `feeds`. `Scenarios.CallbacksAfterLeaving` shows this.
- A subscriber handle whose stream never arrived is not in `feeds`. So a `leaving` event or `leaveRoom` never detaches it.

## Model

| member | source | states |
|---|---|---|
| `Ids.IdString` | src/App.tsx:235 | `toString` of a numeric id gives a non-empty string of decimal digits with no leading zero |
| `Ids.ParseInt` | src/App.tsx:170 | `parseInt` is NaN (None) exactly when the text does not start with a digit; otherwise it is the value of the leading digits |
| `Ids.DigitsValueOfIdString` | src/App.tsx:170 | the digits written by `toString` read back as the same number |
| `Ids.ParseIntOfIdString` | src/App.tsx:166-173 | `parseInt(id.toString())` is the id, so the subscriber join carries the publisher's own feed number |
| `Ids.IdStringInjective` | src/App.tsx:234-242 | two publishers get the same table key if and only if they have the same numeric id |
| `Membership.PublisherEntriesShape` | src/App.tsx:256-265 | the `newParticipants` record has a row for exactly the listed ids; each row carries its own key, a display name and a null stream |
| `Membership.LastListingWins` | src/App.tsx:257-265 | when an id appears more than once in one list, its row is the one built from its last listing |
| `Membership.Announce` | src/App.tsx:267 | after the merge, the table has the old keys plus the listed ones; every listed id has a fresh row with a null stream, overwriting any old row; unlisted rows are unchanged; well-keyed tables stay well keyed |
| `Membership.AnnounceTakesLastListing` | src/App.tsx:244 | after a joined message's merge, an id's row has the display of its last listing |
| `Membership.Without` | src/App.tsx:273-277 | copy-then-delete removes exactly the row under that key, leaves every other row, and changes nothing for an unknown key |
| `Membership.WithStream` | src/App.tsx:198-204 | the row under the key gets the stream and keeps its id and display; an absent key gets a row with only the stream; other rows are unchanged |
| `Membership.ReplayPresence` | src/App.tsx:252-282 | after any sequence of announcements, departures, stream arrivals and cleanups, an id is present exactly when the last event naming it added a row, or when no event names it and it was present before |
| `Membership.ReplayWellKeyed` | src/App.tsx:194-216 | no sequence of table updates produces a row whose id differs from its key |
| `VideoRoom.Classify` | src/App.tsx:223-290 | message branches are tried in priority order: a "joined" message; then an "event" with a publishers list (an empty list still wins); then a leaving id; then a non-empty error; anything else takes no branch |
| `VideoRoom.SubscribeRequests` | src/App.tsx:241 | `subscribeToFeed` is called once per list entry, in list order, with that entry's key and display |
| `VideoRoom.CollectPublishers` | src/App.tsx:234-242 | the `forEach` builds exactly the publisher rows and the subscriber attachments of the whole list |
| `VideoRoom.DetachRequests` | src/App.tsx:307-309 | the handles are detached one per visited key, each being the handle stored under that key |
| `VideoRoom.DetachAll` | src/App.tsx:306-309 | the loop over the stored feeds returns the order it visited them in, which holds every stored key exactly once, and one detach per key of the handle stored there |
| `VideoRoom.DetachRequestsCover` | src/App.tsx:307-309 | when every stored key is visited, every stored handle is detached |
| `VideoRoom.LastConfigure` | src/App.tsx:141-146 | what it finds, if anything, is the body of a configure request |
| `VideoRoom.LastConfigureSent` | src/App.tsx:329-335 | a configure just sent is the last configure, so the gateway's last configure carries exactly the flags it was sent with |
| `VideoRoom.LastConfigureSkips` | src/App.tsx:324-352 | sends that are not configures leave the last configure, and so the flags the gateway last received, unchanged |
| `VideoRoom.App.constructor` | src/App.tsx:13-30 | initial state: status Initializing, room 1234, given name, not joined, not publishing, audio and video on, no handle, empty tables, nothing sent |
| `VideoRoom.App.SetRoom` | src/App.tsx:376 | only the room changes |
| `VideoRoom.App.SetUsername` | src/App.tsx:368 | only the user name changes |
| `VideoRoom.App.OnPluginAttached` | src/App.tsx:75-78 | the publisher handle becomes present and the status says the plugin is ready |
| `VideoRoom.App.JoinRoom` | src/App.tsx:105-121 | with no handle, only the status changes and nothing is sent; with a handle, exactly one publisher join with the room and the display name is sent |
| `VideoRoom.App.PublishOwnFeed` | src/App.tsx:123-139 | with a handle, one offer is asked for with the current audio and video flags; without one, nothing changes |
| `VideoRoom.App.OnOfferCreated` | src/App.tsx:140-148 | one configure with the current flags and the offer is sent and `isPublishing` becomes true; with no handle left, the callback changes nothing |
| `VideoRoom.App.OnOfferFailed` | src/App.tsx:149-152 | only the status changes; `isPublishing` is left as it was |
| `VideoRoom.App.HandleOnMessage` | src/App.tsx:220-291 | each branch chosen by `Classify` makes exactly its update; the error branch changes only the status; an unhandled message changes nothing |
| `VideoRoom.App.OnJoinedMessage` | src/App.tsx:225-249 | `isJoined` becomes true; every listed publisher gets a row with a null stream and one subscriber attachment, in order; then an offer is asked for if a handle exists |
| `VideoRoom.App.AnnouncePublishers` | src/App.tsx:252-267 | listed ids are merged, overwriting existing rows; each gets a subscriber attachment; flags, feeds and status are unchanged |
| `VideoRoom.App.OnLeavingEvent` | src/App.tsx:268-282 | exactly that id's row is removed; a stored feed handle for it is detached and deleted; otherwise nothing is sent, so a repeated leaving changes nothing |
| `VideoRoom.App.LeaveRoom` | src/App.tsx:298-322 | with a handle, a leave is sent and the handle is detached and cleared; then every stored feed is detached once; both tables become empty; joined and publishing are false; the audio and video flags are unchanged |
| `VideoRoom.App.ToggleAudio` | src/App.tsx:324-337 | unless a handle exists and `isPublishing` is true, nothing changes; otherwise only the audio flag flips and one configure is sent with the new audio value and the unchanged video value |
| `VideoRoom.App.ToggleVideo` | src/App.tsx:339-352 | the same as `ToggleAudio`, with the video flag |
| `VideoRoom.App.OnSubscriberAttached` | src/App.tsx:163-174 | one subscriber join is sent on the new handle, carrying the current room and the publisher's numeric id as its feed |
| `VideoRoom.App.OnSubscriberMessage` | src/App.tsx:178-193 | a message with an offer asks for exactly one answer on that handle; other messages change nothing |
| `VideoRoom.App.OnAnswerCreated` | src/App.tsx:184-187 | one start request for the current room is sent on that handle with the answer |
| `VideoRoom.App.OnRemoteStream` | src/App.tsx:194-208 | only that id's row gets the stream, keeping its other fields; the handle is stored under the id in `feeds` |
| `VideoRoom.App.OnCleanup` | src/App.tsx:209-216 | the id is removed from both the participants table and `feeds`; nothing else changes |

## Left out

- Gateway initialisation is not modelled: connecting to the server, the connection's success, error and destroy callbacks, and destroying the instance on unmount (src/App.tsx:34-69). These are calls into the gateway library. A publisher handle appears in the model only through `OnPluginAttached`.
- The plugin attach error (src/App.tsx:79-82) and the publisher handle's `onlocalstream`, `onremotestream` and `oncleanup` (src/App.tsx:84-101) are not modelled. They touch only the status text, the local media stream or the console.
- Handing a message's SDP to the publisher handle (`handleRemoteJsep`, src/App.tsx:293-295) is not modelled. That is media negotiation inside the library. `RoomMessage` carries no SDP.
- Media constraints, ICE and STUN settings, and SDP contents are not modelled. Offers and answers are opaque `Sdp` tokens.
- The subscriber attach error (src/App.tsx:175-177) and the answer error (src/App.tsx:188-190) are not modelled. They only write to the console and change no state.
- Local stream playback and stopping its tracks on leave (src/App.tsx:317-321) are not modelled. That is browser media I/O.
- The rendering and the styles (src/App.tsx:354-517) are not modelled.
- React's asynchronous batching of state updates and its stale closures are not modelled. Each handler sees the current state.
- The room is an integer field. `parseInt` of the room text is not modelled. `ParseInt` does not model leading white space, a sign or a `0x` prefix, because ids rendered by `toString` never have them.
- The user name is a constructor parameter instead of `Math.random`.
- Ids are unbounded naturals. JavaScript's 2^53 limit on exact integers is not modelled.
- A non-numeric `leaving` value, such as the gateway's "ok", is not modelled. `leaving` is a number in the model.
- `subscribeToFeed` needs a connected gateway instance (src/App.tsx:160). If it has none, the call throws. The model does not include that failure.
- The truthiness checks on stored feeds (src/App.tsx:279, 308) are not modelled. The model never stores a null handle.
- The status text is not modelled. Status is a token per message.
- LeaveRoom: does not fix the order of the detaches. JavaScript's property enumeration order is not modelled. The returned `order` is only proved to visit each stored key once.
