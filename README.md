# Windowed pagination of the room view

This project models the core of the room view component of a Matrix web client
(`src/controllers/organisms/RoomView.js`). The component shows only the most recent
`messageCap` events of a room's timeline. When the user is near the top of the message
list it grows that window: first by revealing events the client already holds (a local
round), then by asking the server for `PAGINATE_SIZE` (20) older events with one
`scrollback` call (a remote round). After each re-render it moves the scroll offset down
by the height that was added, so the content the user sees does not jump. When no growth
cycle is running and the user was at the bottom, it pins the list to the bottom instead.
Timeline events are ignored while a cycle runs and while a join is in progress.

The project has three modules:

- `RoomModel` (`room_model.dfy`) is the value model. A `Window` holds the component's
  whole state:
  - the React state: `messageCap`, `paginating`, `joining`, `joinError`;
  - the instance fields: `waiting`, which is `waiting_for_paginate`, plus `atBottom`
    and `oldScrollHeight`;
  - the lifecycle phase;
  - the list's scroll metrics;
  - the length and pagination token of the Room object the component shares with the
    client;
  - four counters the source does not keep: scrollbacks outstanding, scrollbacks
    issued, joins outstanding, and room re-reads.

  Each handler is a function from the old `Window` to the new one. `Event`, `Enabled`
  and `Step` describe what the environment can deliver and when. `Inv` is the invariant
  every reachable state keeps. `Legal` and `Run` cover whole sequences of events.
- `RoomProperties` (`room_properties.dfy`) holds lemmas over sequences of events:
  single flight, ignored events, a cap that changes only through `fillSpace`, stale
  continuations, termination of local growth, and two worked scenarios.
- `RoomViewComponent` (`room_view.dfy`) holds the class `RoomView`. It has the fields
  the source updates in place, and one method per handler and per promise continuation.
  Each handler and continuation method is proved to move the object from `Model()`
  to the `Window` that `RoomModel.Step` gives for its event, and to keep `Valid()`.
  So the lemmas of `RoomProperties` describe the object as long as it is driven
  only by those methods, together with the environment methods `Measure` and
  `RoomUpdated`, each called when `Enabled` allows its event. The method
  `FillSpace` is the helper these methods call. It has no event of its own, and
  calling it directly falls outside what those lemmas cover.

The model makes these choices:

- `setState` is an immediate field update. React drops a `setState` on a component
  that is not mounted, so the join continuations change nothing once the component has
  unmounted.
- `getRoom` returns the same shared Room object each time. Re-reading it therefore
  changes nothing in the state. It is recorded through the `roomReloads` counter, which
  stands for the re-render that the re-read schedules.
- The browser's layout and the client's changes to the Room are environment events.
  In the class they are the methods `Measure` and `RoomUpdated`.
- A scrollback continuation runs after the client has stored the reply. It receives the
  room's new length and token, which are unchanged when the request failed.
- `fillSpace` called without a rendered list throws a `TypeError` before it changes
  anything. This can happen from `onRoomTimeline` and `onMessageListScroll`, which do not
  check for the list before calling it. It is modelled as the handler ending with no
  further change.

## Model

| member | source | states |
|---|---|---|
| RoomModel.Initial | src/controllers/organisms/RoomView.js:27-38 | the initial cap is INITIAL_SIZE = 100 and `atBottom` is true; no cycle, join or request is under way; the state satisfies the invariant |
| RoomModel.LocalCap | src/controllers/organisms/RoomView.js:125 | a local round grows the cap strictly, by at most PAGINATE_SIZE, never past the timeline length, and stops either at the length or at cap + 20 |
| RoomModel.FillSpace | src/controllers/organisms/RoomView.js:116-146 | returns true iff `scrollTop < clientHeight` and a token exists, and otherwise changes nothing; when true, `paginating` is set, the current `scrollHeight` is captured and the cap grows; a local round stays within the length and issues no request; a remote round grows the cap by exactly 20, sets `waiting` and issues exactly one scrollback; no other field changes |
| RoomModel.FillSpaceOrThrow | src/controllers/organisms/RoomView.js:117 | without the list node the call changes nothing; it never lowers the cap |
| RoomModel.ReloadRoom | src/controllers/organisms/RoomView.js:81-83 | re-reading the room changes only the reload count, and that only while mounted |
| RoomModel.ComponentDidMount | src/controllers/organisms/RoomView.js:90-97 | the component becomes mounted; with a list, `scrollTop` is set to `scrollHeight` and a cycle starts iff `scrollHeight < clientHeight` and a token exists; at most one request is added |
| RoomModel.ComponentDidUpdate | src/controllers/organisms/RoomView.js:99-114 | while a cycle runs and no request is awaited, `scrollTop` grows by exactly `scrollHeight - oldScrollHeight`, the capture is cleared (and retaken only if the cycle goes on), and `paginating` stays true iff the re-run `fillSpace` succeeds; otherwise a view at the bottom is pinned to `scrollHeight` and ends up passing the bottom test, and any other view is unchanged; the cap never shrinks |
| RoomModel.OnMessageListScroll | src/controllers/organisms/RoomView.js:166-172 | `atBottom` becomes `scrollHeight - scrollTop <= clientHeight` when the list exists; during a cycle nothing else changes; otherwise a new cycle starts iff `fillSpace`'s condition holds |
| RoomModel.OnRoomTimeline | src/controllers/organisms/RoomView.js:63-88 | changes nothing before mount, during a cycle, while joining, or for another room; otherwise it refreshes `atBottom` with the scroll handler's test and re-reads the room; an appended event changes nothing more; a prepended event starts a cycle iff `fillSpace`'s condition holds |
| RoomModel.OnAction | src/controllers/organisms/RoomView.js:47-55 | a `message_sent` action re-reads the room while mounted; no other action and no other field is affected, in particular no fill |
| RoomModel.ScrollbackFinished | src/controllers/organisms/RoomView.js:132-140 | the settlement clears `waiting` and removes the outstanding request but keeps `paginating` and the cap; the room is re-read only if still mounted; the client's new length and token are stored; nothing else changes |
| RoomModel.JoinClicked | src/controllers/organisms/RoomView.js:148-164 | the click issues one join and sets `joining`; nothing else changes |
| RoomModel.JoinSucceeded | src/controllers/organisms/RoomView.js:150-154 | while mounted, `joining` is cleared and the room re-read; `joinError` is untouched; the join is no longer outstanding |
| RoomModel.JoinFailed | src/controllers/organisms/RoomView.js:155-160 | while mounted, `joining` is cleared and `joinError` records the error; the join is no longer outstanding |
| RoomModel.Step | src/controllers/organisms/RoomView.js:47-172 | every handler and continuation keeps the invariant (a scrollback is outstanding exactly while `waiting`, `waiting` implies `paginating`, `paginating` iff a height is captured); the cap never decreases, and it changes only in the handlers that call `fillSpace`; each request issued is outstanding until a settlement |
| RoomModel.Run | src/controllers/organisms/RoomView.js:47-172 | after any legal sequence of events the invariant holds, the cap has not decreased, and at most one scrollback is outstanding |
| RoomProperties.ScrollbacksAccounted | src/controllers/organisms/RoomView.js:127-141 | over any sequence of events, the requests issued equal the settlements plus the change in outstanding requests |
| RoomProperties.SingleFlight | src/controllers/organisms/RoomView.js:128-133 | from creation on, for any interleaving: at most one scrollback is outstanding, exactly while `waiting_for_paginate` is set, and the requests issued never exceed the settlements by more than one |
| RoomProperties.BusyIgnoresTimeline | src/controllers/organisms/RoomView.js:66-74 | any number of timeline events that arrive during a cycle or a join leave the state exactly as it was |
| RoomProperties.CapChangesOnlyThroughFill | src/controllers/organisms/RoomView.js:123-130 | a sequence with no mount, update, scroll or timeline event leaves the cap unchanged |
| RoomProperties.UnmountedStateFrozen | src/controllers/organisms/RoomView.js:132-138 | after unmount, late continuations and stray events change neither the cap, `paginating`, `joining`, `joinError` nor the reload count |
| RoomProperties.RevealAfter | src/controllers/organisms/RoomView.js:123-126 | consecutive local rounds keep the cap between its start and the timeline length |
| RoomProperties.LocalGrowthReachesLength | src/controllers/organisms/RoomView.js:123-126 | ceil(gap / 20) applications of the local min-cap reach exactly the timeline length, and one fewer does not; `LocalCycleReachesLength` carries this over to the machine's re-renders |
| RoomProperties.UpdateIsLocalRound | src/controllers/organisms/RoomView.js:104-126 | when a local round is pending and buffered events remain beyond the cap, the re-render's `fillSpace` is a local round: the cap becomes min(cap + 20, length), no request is issued, and the same pending cycle follows with nothing else changed |
| RoomProperties.UpdatesReveal | src/controllers/organisms/RoomView.js:104-126 | up to ceil(gap / 20) consecutive re-renders of a pending local cycle are legal, issue no request, and leave the cap where that many local rounds put it, with every other field unchanged |
| RoomProperties.LocalCycleReachesLength | src/controllers/organisms/RoomView.js:104-126 | in the state machine, ceil(gap / 20) re-renders of a pending local cycle reveal exactly the whole buffered timeline, with the cycle still running and no scrollback issued |
| RoomProperties.StepWithoutToken | src/controllers/organisms/RoomView.js:118 | without a token, no single event that brings no token changes the cap or gives the room a token |
| RoomProperties.NoTokenCapFrozen | src/controllers/organisms/RoomView.js:118 | without a token, no sequence of events that brings no token changes the cap, however many events are buffered beyond it |
| RoomProperties.BackfillScenario | src/controllers/organisms/RoomView.js:90-146 | 100 buffered events with a token and a short list: mounting issues one scrollback; a reply of 20 events with no further token, then one update, gives cap 120, no cycle, a scroll offset moved down by 120, and one request in all |
| RoomProperties.JoinFailureScenario | src/controllers/organisms/RoomView.js:148-164 | a join that fails with "forbidden" leaves `joining` false and `joinError` set; a live event received while joining is not reconciled |
| RoomViewComponent.RoomView.constructor | src/controllers/organisms/RoomView.js:27-38 | the new object is RoomModel.Initial for its room and is valid |
| RoomViewComponent.RoomView.FillSpace | src/controllers/organisms/RoomView.js:116-146 | the object's new state and the result are exactly RoomModel.FillSpace of its old state |
| RoomViewComponent.RoomView.ComponentDidMount | src/controllers/organisms/RoomView.js:90-97 | the new state is the mount step of the old one, and the object stays valid |
| RoomViewComponent.RoomView.ComponentDidUpdate | src/controllers/organisms/RoomView.js:99-114 | the new state is the update step of the old one (including the scroll anchoring), and the object stays valid |
| RoomViewComponent.RoomView.OnMessageListScroll | src/controllers/organisms/RoomView.js:166-172 | the new state is the scroll step of the old one, and the object stays valid |
| RoomViewComponent.RoomView.OnRoomTimeline | src/controllers/organisms/RoomView.js:63-88 | the new state is the timeline step of the old one, and the object stays valid |
| RoomViewComponent.RoomView.OnAction | src/controllers/organisms/RoomView.js:47-55 | the new state is the action step of the old one, and the object stays valid |
| RoomViewComponent.RoomView.ScrollbackFinished | src/controllers/organisms/RoomView.js:132-140 | the new state is the scrollback settlement of the old one, and the object stays valid |
| RoomViewComponent.RoomView.JoinClicked | src/controllers/organisms/RoomView.js:148-164 | the new state is the join-click step of the old one, and the object stays valid |
| RoomViewComponent.RoomView.JoinSucceeded | src/controllers/organisms/RoomView.js:150-154 | the new state is the join-success step of the old one, and the object stays valid |
| RoomViewComponent.RoomView.JoinFailed | src/controllers/organisms/RoomView.js:155-160 | the new state is the join-failure step of the old one, and the object stays valid |
| RoomViewComponent.RoomView.ComponentWillUnmount | src/controllers/organisms/RoomView.js:40-45 | the component is no longer mounted; nothing else changes |

## Behaviour of the code worth knowing

- Buffered events beyond the cap are not revealed once the room has no pagination
  token. `fillSpace` tests the token before it looks for buffered events (line 118).
  So events beyond the cap, for example events appended live after a remote round,
  stay hidden until a token appears again. `RoomProperties.NoTokenCapFrozen` states
  this. Termination of local growth (`LocalCycleReachesLength`) is therefore stated
  for a cycle that has a token.
- A re-render while a scrollback is in flight is not a pure wait. The comment at
  line 139 leaves the end of the cycle to the next update. But the `else if
  (this.atBottom)` branch (lines 104-113) also covers the in-flight case, so a view
  whose `atBottom` is set is pinned to the bottom while the request is outstanding.
- The scrollback continuation is not entirely inert after unmount. It still clears
  the instance field `waiting_for_paginate` (line 133), and only the room re-read is
  guarded by `isMounted()` (line 134). `UnmountedStateFrozen` states what does stay
  unchanged.
- Switching the component to another room does not reset the window.
  `componentWillReceiveProps` is commented out (lines 57-61), so the only way to a
  fresh cap is a new component.

## Left out

- Subscription plumbing is not modelled: dispatcher registration in `componentWillMount`
  and removal of the listener in `componentWillUnmount`. Only `atBottom := true` and the
  lifecycle phase are kept.
- The client (`MatrixClientPeg`: `getRoom`, `scrollback`, `joinRoom`) is replaced by two
  fields, the timeline length and the token, plus continuation methods that the
  environment calls. Every request asks for the constant `PAGINATE_SIZE`, so the model
  counts requests but does not record their size.
- The case where `getRoom` returns null for an unknown room is not modelled.
- DOM access is replaced by integer scroll metrics and a `listShown` flag that the
  environment supplies.
- The browser clamps `scrollTop` to the scrollable range whenever it is assigned. The
  model does not: it keeps the value the component writes (lines 93, 106 and 112). So
  the mount test `scrollTop < clientHeight` reads `scrollHeight < clientHeight` here,
  where a browser would compare the clamped offset.
- React's batching and asynchronous merging of `setState` are not modelled.
- Scheduling of promise continuations is not modelled. A continuation may arrive
  between any two events.
- Rendering of message rows is not modelled. Only the timeline length matters.
- `joinError` is modelled as a string, not as the client's error object.
