# Mesh video call bookkeeping, modelled in Dafny

This project models the bookkeeping that drives a mesh video call in a React
client. It covers two parts.

- **The `useWebRTC(roomID)` hook.** It keeps one peer connection per remote
  peer in a map. It also keeps an ordered roster of displayed clients, where
  `LOCAL_VIDEO` stands for the local participant. It routes each inbound
  signaling event (`ADD_PEER`, `SESSION_DESCRIPTION`, `ICE_CANDIDATE`,
  `REMOVE_PEER`) and each browser callback (`onicecandidate`, `ontrack`) to
  one handler. A handler updates the map and roster, or emits effects into
  one ordered log: outbound socket messages (`JOIN`, `LEAVE`, `RELAY_SDP`,
  `RELAY_ICE`) and stops of local tracks.
- **The `useStateWithCallback` primitive.** The roster is one of these: a
  state value plus one pending-callback slot. After a state change is
  committed, the pending callback gets the new state, once.

Modules:

- `Roster` (roster.dfy) holds the two pure roster updaters and their lemmas:
  append-if-absent and filter-out.
- `StateWithCallback` (state_with_callback.dfy) holds the abstract value
  `Hook`: the latest state, the last committed state and the slot. It has
  spec functions for an update and for a commit, and the class
  `StatefulValue`, whose methods are proved against those functions. It also
  has `Run`, which runs a sequence of updates and commits, with lemmas about
  which callbacks fire.
- `WebRTC` (webrtc.dfy) holds the class `Session`. It has one method per
  handler. Its `Valid()` invariant says three things:
  - the roster has no duplicates;
  - a remote peer is listed exactly when it has a live connection that has
    received at least two tracks;
  - live connections are open, and dropped ones are closed.

  Every handler preserves `Valid()`. The short `Example…` methods at the end
  are clients of the contracts.

Modelling choices:

- Each handler is one atomic step.
- An RTCPeerConnection is an opaque `Link` record. It holds the `ontrack`
  counter, a closed flag, the local tracks added to it, and the descriptions
  and remote candidates applied to it.
- When the browser creates an offer or answer, its SDP text is a parameter of
  the handler.
- Camera/microphone capture is a parameter: `None` for a refusal, or the list
  of captured track ids.
- A JavaScript exception ends the handler at the point where it is thrown.
  Whatever the handler did before that point stays done:
  - `ADD_PEER` with no local stream keeps the new map entry but adds no tracks
    and sends no offer.
  - An offer for an unknown peer sends no answer.
  - Cleanup with no local stream stops nothing and sends no `LEAVE`.
- `Render` stands for React rendering the roster and then running its
  `[state]` effect.

Facts about the code that the model keeps:

- There is no negotiation role: the code applies offers and answers in any
  order. The model logs each applied description.
- The capture effect's cleanup, run on leaving a room, does not close peer
  connections or clear the roster. It only stops the local tracks and sends
  `LEAVE`. The other effects' cleanups unsubscribe the `SESSION_DESCRIPTION`,
  `ICE_CANDIDATE` and `REMOVE_PEER` handlers on unmount. The `ADD_PEER`
  listener is never removed.
- Cleanup is not guarded by a "media acquired" flag. When capture never
  succeeded, it throws before sending `LEAVE`.
- `REMOVE_PEER` calls `updateClients` without a callback. Because the slot
  always takes the latest argument, this drops any callback still pending,
  including one that belongs to another peer.
- The slot keeps only the latest callback. If two peers both reach two tracks
  before the next render, only the second peer's bind callback runs
  (`WebRTC.SecondListingSupersedesFirst`), and the first peer's element is
  never given its stream by that render.

## Model

| member | source | states |
|---|---|---|
| `Roster.AddIfAbsent` | src/hooks/useWebRTC.js:12-16 | The new client is in the result. Nothing else is added. The old roster is an untouched prefix. An absent client is appended at the end; a listed client leaves the length unchanged. No duplicates are introduced. |
| `Roster.Without` | src/hooks/useWebRTC.js:127 | The filtered peer is gone. Every other member stays, and nothing new appears. Filtering an absent peer changes nothing. No duplicates are introduced. |
| `Roster.WithoutConcat` | src/hooks/useWebRTC.js:127 | Filtering distributes over concatenation, so the survivors keep their relative order. |
| `Roster.WithoutKeepsOthersOrder` | src/hooks/useWebRTC.js:119-128 | Take any two other clients in the roster. After a removal, both are still there, in the same order. |
| `Roster.WithoutUndoesAdd` | src/hooks/useWebRTC.js:127 | Removing a client after adding it gives the same roster as removing it without the add. |
| `Roster.AddAndRemoveIdempotent` | src/hooks/useWebRTC.js:12-16 | A second add of the same client changes nothing. A second removal changes nothing. |
| `StateWithCallback.Resolve` | src/hooks/useStateWithCallback.js:10 | A function argument is applied to the previous state; any other argument is the new state itself. |
| `StateWithCallback.Mounted` | src/hooks/useStateWithCallback.js:3-5 | After mount the state and the committed state are the initial value and the slot is empty, so the mount-time run of the effect invokes nothing and changes nothing. |
| `StateWithCallback.AfterUpdate` | src/hooks/useStateWithCallback.js:7-11 | The slot holds exactly the new callback, whatever it held before (an absent callback clears it). The state becomes the resolved argument. Nothing is committed by the update itself. |
| `StateWithCallback.AfterCommit` | src/hooks/useStateWithCallback.js:13-18 | A callback is invoked exactly when the state changed and one is pending. It is the pending callback, and it gets the new state. A change empties the slot. No change leaves the slot as it was. |
| `StateWithCallback.StatefulValue.constructor` | src/hooks/useStateWithCallback.js:3-5 | The initial value is the state and the committed state. The slot is empty. |
| `StateWithCallback.StatefulValue.Update` | src/hooks/useStateWithCallback.js:7-11 | The slot takes the new callback, overwriting or clearing the old one. The state becomes `f(previous)` for an updater function, or the value itself otherwise. |
| `StateWithCallback.StatefulValue.Commit` | src/hooks/useStateWithCallback.js:13-18 | The new fields and the invoked callback are those of `AfterCommit`. |
| `StateWithCallback.InvocationsBounded` | src/hooks/useStateWithCallback.js:7-18 | In any run of updates and commits, at most one callback fires per registering update, plus at most one already pending. |
| `StateWithCallback.NothingFiresWithoutRegistration` | src/hooks/useStateWithCallback.js:14-16 | Once the slot is empty, a run that registers no callback invokes nothing. |
| `StateWithCallback.LatestCallbackPending` | src/hooks/useStateWithCallback.js:7-10 | After a burst of updates, the slot holds the last update's callback, or none if that update passed none. Nothing has fired yet. |
| `StateWithCallback.InvokedWereRegistered` | src/hooks/useStateWithCallback.js:7-18 | Every callback a run invokes was registered by one of the run's updates, or is the callback already pending on a state that is not yet committed. |
| `StateWithCallback.StalePendingNeverFires` | src/hooks/useStateWithCallback.js:7-18 | A callback pending on a state that equals the committed one is never invoked by any later run. Only callbacks the run itself registers can fire. |
| `StateWithCallback.LatestCallbackWins` | src/hooks/useStateWithCallback.js:7-18 | The commit after such a burst fires only the last callback, once, with the new state, and empties the slot. If the state did not change, nothing fires and that callback stays pending. |
| `WebRTC.AttachTracks` | src/hooks/useWebRTC.js:54-56 | Every local track is added to the connection, in order. Nothing else about the connection changes. |
| `WebRTC.BindingsOf` | src/hooks/useWebRTC.js:48-50 | Covers the remote bind callback here and the local one at src/hooks/useWebRTC.js:149-156. A commit binds at most one element, and none when no callback was invoked. A binding names the callback's target peer (the remote peer, or `LOCAL_VIDEO`) and the element registered for that peer. A remote callback binds exactly the stream it captured; the local one binds the local stream. When an element is registered for the target, exactly one binding is made. |
| `WebRTC.RemotePeerBecomesVisible` | src/hooks/useWebRTC.js:42-52 | For any new remote peer on a rendered session, the sequence first track, render, second track, element handed over, render ends with the peer appended to the roster and committed, the slot empty, and exactly one new binding: that element gets the second track's stream. So the render after the first track bound nothing. `Valid()` holds at the end. |
| `WebRTC.SecondListingSupersedesFirst` | src/hooks/useWebRTC.js:42-51 | Two peers listed (each by appending itself) before one render are both in the roster, but only the second one's bind callback runs. |
| `WebRTC.Session.constructor` | src/hooks/useWebRTC.js:10-22 | No connections. Only the `LOCAL_VIDEO` element slot, holding null. No stream. An empty mounted roster. Empty logs. |
| `WebRTC.Session.AddNewClient` | src/hooks/useWebRTC.js:12-16 | The roster becomes `AddIfAbsent(roster, client)`. The callback is stored only when the client was absent. Otherwise no update is made and the slot is untouched. |
| `WebRTC.Session.HandleNewPeer` | src/hooks/useWebRTC.js:26-70 | A known peer changes nothing. A new peer gets exactly one new entry: track count 0, open, carrying every local track. Other entries are untouched. With `createOffer`, the offer is set as local description and exactly one `RELAY_SDP` with it is sent. Without it, none is sent. With no local stream, only the entry is made. `Valid()` is preserved. |
| `WebRTC.Session.OnIceCandidate` | src/hooks/useWebRTC.js:33-40 | A non-null candidate sends exactly one `RELAY_ICE` to that peer. A null one sends nothing. |
| `WebRTC.Session.OnTrack` | src/hooks/useWebRTC.js:42-52 | The peer's count goes up by one. Only the track that makes it exactly 2 lists the peer, with a callback that binds this stream. The 1st, 3rd and later tracks leave the roster and slot unchanged. `Valid()` is preserved. |
| `WebRTC.Session.SetRemoteMedia` | src/hooks/useWebRTC.js:77-96 | On a known peer, the description is applied. An offer is answered: the answer becomes the local description, and exactly one `RELAY_SDP` with it is sent. An answer sends nothing. An unknown peer gets nothing applied and nothing sent. The map keys and the other entries are unchanged. |
| `WebRTC.Session.AddIceCandidate` | src/hooks/useWebRTC.js:106-110 | The candidate is applied to the peer's connection if it exists, and ignored otherwise. The map keys, other entries and roster are unchanged. |
| `WebRTC.Session.HandleRemovePeer` | src/hooks/useWebRTC.js:119-128 | An existing connection is closed and logged. The peer's map entry and element entry are deleted. The roster becomes `Without(roster, peer)` and the slot is emptied. Other entries are unchanged. An absent peer leaves the map and the logs as they were. `Valid()` is preserved. |
| `WebRTC.Session.StartCapture` | src/hooks/useWebRTC.js:140-161 | A successful capture keeps the stream, lists `LOCAL_VIDEO` with a bind callback unless it is already listed, and only then sends `JOIN {room}`. A failed capture changes nothing and sends nothing. |
| `WebRTC.Session.Cleanup` | src/hooks/useWebRTC.js:163-166 | The effects log grows by a stop of every local track, in track order, followed by exactly one `LEAVE`; nothing else changes. With no stream, the log is unchanged. |
| `WebRTC.Session.ProvideMediaRef` | src/hooks/useWebRTC.js:169-171 | The element slot for the id becomes the given node. Every other slot is unchanged. |
| `WebRTC.Session.Render` | src/hooks/useStateWithCallback.js:13-18 | The roster moves as `AfterCommit` says. The invoked callback, if any, binds as `BindingsOf` says. `Valid()` is preserved. |

## Left out

- Browser and library calls are opaque or absent: the internals of `RTCPeerConnection`, SDP contents, ICE gathering and the `freeice()` server list.
- `getUserMedia` and its 1280×720 constraints are device I/O. Capture is a parameter.
- The socket.io client and its transport options (src/socket/index.js) are network plumbing. Outbound messages go to the append-only effects log.
- React's scheduling is left out:
  - the re-registration of the `ADD_PEER` listener on every render, without cleanup;
  - the `socket.off` unsubscriptions;
  - `useCallback` dependency lists.
- Stale closures over `clients` are left out: `addNewClient` checks the latest roster state.
- Interleaving at `await` points is left out: every handler is one atomic step.
- A rejected negotiation call (`setRemoteDescription`, `addIceCandidate`, …) is left out.
- `console` logging is left out.
- Setting `volume = 0` on the local element is left out. Assigning `srcObject` is recorded as a `Binding`.
- StateWithCallback.AfterCommit: the roster state is compared by value, while React compares by reference (`Object.is`). Every roster update in the source builds a new array, so the source re-runs the `[state]` effect after any update, even one that leaves the roster equal by value to the committed one. This shows in one case. A peer that is last in the committed roster is removed (`REMOVE_PEER`), then re-added (`ADD_PEER` and two tracks), all before the next render. The re-listing registers a bind callback and leaves the roster equal by value to the committed one. At that render the source binds the peer's new stream. The model invokes nothing and leaves the callback pending, and that callback never fires: the roster changes only through an update, and that update overwrites the slot first (`StateWithCallback.StalePendingNeverFires`). So in the model the peer's new stream is never bound. A filter that removes nothing is the other value-equal update, and it carries no callback, so the difference does not show there.
- `WebRTC.Session.OnTrack` and `WebRTC.Session.OnIceCandidate` require the peer's connection to be in the map. These callbacks belong to one connection, and a connection fires nothing after the `REMOVE_PEER` handler has closed it.
- `WebRTC.Session.Render`: a remote bind callback whose element is missing or null binds nothing (`WebRTC.BindingsOf` returns no binding) and still empties the slot. In the source, the assignment throws inside the effect (useWebRTC.js:49): the slot is not cleared, and the error goes to React. The local callback checks for its element first (useWebRTC.js:152), so it matches the model.
- `WebRTC.Session.ProvideMediaRef`: React hands over a new element during the render that lists its peer. The model asks for it as a separate step before `Render`.
