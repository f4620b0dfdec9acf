# Slot sender of the HISE dispatch core, in Dafny

This project models the slot sender of HISE's dispatch system
(`hi_tools/hi_dispatch/02_events/SlotSender.h`). A source object owns a
slot sender and uses it to report that one of its numbered slots changed. Per
notification channel (`DispatchType`), the sender keeps a bitmap of dirty
slots and a queue of listeners. It has a constant one-byte index and a
constant hashed id, and a router uses the id to find it by path. A flow
manager (`PerfettoFlowManager`) tracks one pending trace-flow id per channel.
It exists only in the tracing build and does nothing otherwise.

Modules:

- `DispatchTypes` (DispatchTypes.dfy): the channels, the `uint8` byte type,
  hashed names (`HashedId`, standing for `HashedCharPtr`) and hashed paths,
  and the per-channel container. `DispatchTypeContainer<T>` is modelled as a
  map with an entry for every channel.
- `Flows` (Flows.dfy): the flow state as a value (`FlowState`), with
  `Opened`/`Closed` as its transitions. It also holds the root object's
  shared counter (`RootObject`), the `FlowManager` class whose methods are
  proved against `Opened`/`Closed`, and lemmas about runs of open/close calls.
- `Slots` (Slots.dfy): the sender's state as a value (`SenderState`), the
  `Queue` and `SlotSender` classes, and lemmas. The class methods are proved
  against the functions `Cleared`, `Resized`, `Drained` and `Marked`.

The header has bodies for only four sender members: `matchesPath`,
`getListenerQueue`, `shutdown` and `getSlotIndex`. It only declares
`setNumSlots`, `flush` and `sendChangeMessage` (lines 111-113). For these
three, `Resized`, `Drained` and `Marked` are ASSUMED semantics, not proved
properties of code, because their bodies are defined outside SlotSender.h:

- resizing drops the bits at or past the new count;
- a flush empties the channel's bitmap and reports whether it had been
  non-empty;
- a send sets one bit if the index is in range, ignores the call otherwise,
  and reports whether the bit went from clear to set.

The same goes for the lemmas about them (`SendsCoalesce`, `ShrinkDropsBits`,
`FourSlotScenario`, `FlushAfterShutdownIsEmpty`).

`matchesPath` (lines 115-130) never reads its channel argument `n`. It tests
the path's own dispatch-type segment (`p.dispatchType.isWildcard()`). A
concrete segment reaches the unimplemented branch (the `TODO` at line 123),
which asserts in debug builds and returns false. The model returns false
there.

## Model

| member | source | states |
|---|---|---|
| `Flows.Opened` | hi_tools/hi_dispatch/02_events/SlotSender.h:54-65 | if channel n has no pending flow, it gets a fresh id one past the counter, larger than every pending id; otherwise nothing changes (a repeated open reuses the id). Other channels are untouched, n always ends with a flow, and the no-shared-pending-id invariant is kept |
| `Flows.Closed` | hi_tools/hi_dispatch/02_events/SlotSender.h:67-76 | returns the id pending on channel n and leaves n at 0 (no flow); the counter and the other channels do not change |
| `Flows.OpenTwiceReusesFlow` | hi_tools/hi_dispatch/02_events/SlotSender.h:59-62 | a second open on the same channel changes nothing: one id per open burst |
| `Flows.CloseTwiceYieldsNoFlow` | hi_tools/hi_dispatch/02_events/SlotSender.h:72-75 | a second close on the same channel returns 0 |
| `Flows.Replay` | hi_tools/hi_dispatch/02_events/SlotSender.h:54-76 | any sequence of opens and closes keeps the flow invariant, never lowers the counter and returns exactly one id per close (`CloseCount`) |
| `Flows.ClosedPendingIds` | hi_tools/hi_dispatch/02_events/SlotSender.h:72-75 | closing a channel removes exactly its id from the set of pending ids |
| `Flows.OpenedPendingIds` | hi_tools/hi_dispatch/02_events/SlotSender.h:59-62 | opening an idle channel adds exactly the fresh counter value to the pending ids |
| `Flows.ReplayClosesDistinctFlows` | hi_tools/hi_dispatch/02_events/SlotSender.h:54-76 | over any run, every nonzero id a close returns was pending at the start or handed out during the run, and no nonzero id is returned twice, so two trace flows never share an id |
| `Flows.ReopensThenClose` | hi_tools/hi_dispatch/02_events/SlotSender.h:59-75 | while a flow is pending on n, any number of further opens on n leave the state alone, and the closing call returns that flow's id |
| `Flows.BurstFirstOpen` | hi_tools/hi_dispatch/02_events/SlotSender.h:59-62 | in a burst of opens on n, only the first open changes the state before the rest of the burst runs |
| `Flows.OpenThenCloseRestores` | hi_tools/hi_dispatch/02_events/SlotSender.h:59-75 | opening an idle channel gives it the id one past the counter, and closing it again restores every pending id, with the counter one further on |
| `Flows.BurstIsOneFlow` | hi_tools/hi_dispatch/02_events/SlotSender.h:54-76 | a burst of one or more opens on an idle channel, followed by its close, takes exactly one id from the counter and returns that id; afterwards every pending id is as it was and the counter has moved on by one |
| `Flows.RootObject.BumpFlowCounter` | hi_tools/hi_dispatch/02_events/SlotSender.h:62 | (assumed) the root counter hands out a fresh, nonzero id, one past the last |
| `Flows.FlowManager.constructor` | hi_tools/hi_dispatch/02_events/SlotSender.h:46-52 | a new manager keeps the root, parent and object names it is given and (assumed) has no pending flow on any channel |
| `Flows.FlowManager.OpenFlow` | hi_tools/hi_dispatch/02_events/SlotSender.h:54-65 | with tracing on, the new state is `Opened` of the old one; in the build without tracing (line 93) nothing changes; the manager's invariant is kept |
| `Flows.FlowManager.CloseFlow` | hi_tools/hi_dispatch/02_events/SlotSender.h:67-76 | with tracing on, the returned id and the new state are `Closed` of the old state; in the build without tracing (line 94) nothing changes and no flow (0) is returned |
| `Slots.Cleared` | hi_tools/hi_dispatch/02_events/SlotSender.h:134-139 | after shutdown every channel's bitmap and listener queue is empty and the slot count is unchanged |
| `Slots.ShutdownIdempotent` | hi_tools/hi_dispatch/02_events/SlotSender.h:134-139 | shutting down twice is the same as shutting down once |
| `Slots.FlushAfterShutdownIsEmpty` | hi_tools/hi_dispatch/02_events/SlotSender.h:112 | (assumed flush semantics) after shutdown, a flush on any channel reports nothing pending |
| `Slots.Resized` | hi_tools/hi_dispatch/02_events/SlotSender.h:111 | (assumed) the new count applies to every channel; exactly the bits below it survive; queues are untouched |
| `Slots.Drained` | hi_tools/hi_dispatch/02_events/SlotSender.h:112 | (assumed) reports true exactly when channel n had a dirty slot and leaves n's bitmap empty; other channels, the queues and the count are unchanged |
| `Slots.Marked` | hi_tools/hi_dispatch/02_events/SlotSender.h:113 | (assumed) an in-range index is added to the channel's bitmap and the result is true exactly when its bit was clear; an out-of-range index changes nothing and gives false; other channels are untouched |
| `Slots.SendAll` | hi_tools/hi_dispatch/02_events/SlotSender.h:113 | (assumed send semantics) any run of sends keeps the dirty bits below the slot count |
| `Slots.SendsCoalesce` | hi_tools/hi_dispatch/02_events/SlotSender.h:113 | (assumed send semantics) a run of sends on one channel leaves dirty exactly the distinct in-range indices sent, whatever the repeats; other channels, the queues and the count do not change |
| `Slots.ShrinkDropsBits` | hi_tools/hi_dispatch/02_events/SlotSender.h:111 | (assumed resize semantics) after shrinking to m and growing again, no bit at or past m comes back |
| `Slots.FourSlotScenario` | hi_tools/hi_dispatch/02_events/SlotSender.h:112-113 | (assumed semantics) with four slots, sends of 1, 3, 1 leave {1, 3} dirty; the first flush reports changes and the second none |
| `Slots.Queue.Clear` | hi_tools/hi_dispatch/02_events/SlotSender.h:138 | a cleared queue holds no listener |
| `Slots.SlotSender.constructor` | hi_tools/hi_dispatch/02_events/SlotSender.h:108 | the index and id are the ones given; every channel gets its own fresh, empty queue; all bitmaps are empty and (assumed) the slot count is 0 |
| `Slots.SlotSender.SetNumSlots` | hi_tools/hi_dispatch/02_events/SlotSender.h:111 | (assumed) the new state is `Resized` of the old; the sender invariant is kept |
| `Slots.SlotSender.Flush` | hi_tools/hi_dispatch/02_events/SlotSender.h:112 | (assumed) the result and the new state are `Drained` of the old state; the default channel is `SendNotification` |
| `Slots.SlotSender.SendChangeMessage` | hi_tools/hi_dispatch/02_events/SlotSender.h:113 | (assumed) the result and the new state are `Marked` of the old state |
| `Slots.SlotSender.MatchesPath` | hi_tools/hi_dispatch/02_events/SlotSender.h:115-130 | true exactly when the path's slot id equals the sender's id and the path's dispatch type is the wildcard; a different id, or the same id with a concrete dispatch type, gives false |
| `Slots.SlotSender.MatchesPathIgnoresChannel` | hi_tools/hi_dispatch/02_events/SlotSender.h:115 | the queried channel argument never changes the answer |
| `Slots.SlotSender.GetListenerQueue` | hi_tools/hi_dispatch/02_events/SlotSender.h:132 | returns channel n's own queue object, which no other channel shares |
| `Slots.SlotSender.Shutdown` | hi_tools/hi_dispatch/02_events/SlotSender.h:134-139 | clears every bitmap and then every queue in place; the new state is `Cleared` of the old (count unchanged), and index and id are constants |
| `Slots.SlotSender.GetSlotIndex` | hi_tools/hi_dispatch/02_events/SlotSender.h:141 | returns the index the sender was constructed with, which is constant |

## Left out

- Slots.SlotSender.SetNumSlots: the body is not part of this model (only the declaration at line 111 exists); its contract is the assumed resize semantics, and the inline or heap storage of `SlotBitmap` is not modelled.
- Slots.SlotSender.Flush: the body is not part of this model; the assumed contract drains and reports, but does not deliver the drained bitmap to the listeners or close the trace flow.
- Slots.SlotSender.SendChangeMessage: the body is not part of this model; the assumed contract marks one bit, but does not open a trace flow. Out-of-range indices are ignored, not asserted.
- Slots.SlotSender.constructor: the body is defined outside SlotSender.h; the initial slot count of 0 and the empty bitmaps are assumptions.
- Slots.Queue: registration, removal and delivery of listeners (the `Queue` class) are not part of this model; SlotSender.h only calls `clear`.
- Flows.FlowManager.constructor: the constructor (lines 46-52) does not initialise `pendingFlows`; the all-zero start relies on the default constructor of `DispatchTypeContainer<uint64_t>`, which is not in SlotSender.h, and is assumed.
- Flows.RootObject.BumpFlowCounter: it is defined outside SlotSender.h; it is modelled as an unbounded counter, so the 64-bit wrap-around of `uint64_t` is not captured.
- `DispatchType`: the enumerators are not in SlotSender.h. The model uses `SendNotification` (named at line 112) and a synchronous and an asynchronous channel, one container entry each. Any aliasing the real container applies between enumerators is not captured.
- `HashedCharPtr::isWildcard` is defined outside SlotSender.h; the model takes the wildcard to be the text `*`.
- The trace events themselves are not modelled: the `TRACE_EVENT` call, the `StringBuilder` event name, the `std::function` flow value and the unused `requestFunction`. Only the flow ids are modelled.
- The owning `Source` reference and the sender's own flow-manager member are not modelled.
- Concurrency between producer and consumer is not modelled; every operation is sequential.
- The debug assertion (`jassertfalse`) in `matchesPath` and the JUCE leak detector are not modelled; the assertion path simply returns false.
