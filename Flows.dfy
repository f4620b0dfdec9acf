/** The trace-flow bookkeeping of a slot sender (`PerfettoFlowManager`).
    Each channel has one pending flow id, 0 meaning "no flow open". Opening
    takes a fresh id from the counter of the root object only when the
    channel has none pending; closing hands back the pending id and resets it
    to 0. Only the ids are modelled, not the trace events themselves. */
module Flows {
  import opened DispatchTypes

  /** The abstract state: the pending flow id of every channel and the value
      of the root object's flow counter. */
  datatype FlowState = FlowState(pending: map<DispatchType, nat>, counter: nat)

  /** A pending id is one the counter has already handed out, and no two
      channels share a pending id. */
  ghost predicate ValidFlows(s: FlowState) {
    && IsContainer(s.pending)
    && (forall c :: c in s.pending ==> s.pending[c] <= s.counter)
    && (forall a, b :: a in s.pending && b in s.pending && a != b && s.pending[a] != 0 ==> s.pending[a] != s.pending[b])
  }

  /** The nonzero pending ids. */
  ghost function PendingIds(s: FlowState): set<nat> {
    set c | c in s.pending && s.pending[c] != 0 :: s.pending[c]
  }

  /** `openFlow(n, slotIndex)`: the slot index only labels the trace event. */
  function Opened(s: FlowState, n: DispatchType): (r: FlowState)
    requires ValidFlows(s)
    ensures ValidFlows(r)
    ensures s.pending[n] == 0 ==> r.counter == s.counter + 1 && r.pending[n] == r.counter
    ensures s.pending[n] == 0 ==> forall c :: c in s.pending ==> s.pending[c] < r.pending[n]
    ensures s.pending[n] != 0 ==> r == s
    ensures r.pending[n] != 0
    ensures forall c :: c != n ==> r.pending[c] == s.pending[c]
  {
    if s.pending[n] == 0 then
      var id := s.counter + 1;
      FlowState(s.pending[n := id], id)
    else
      s
  }

  /** `closeFlow(n)`: the id that was pending, and the state with it reset. */
  function Closed(s: FlowState, n: DispatchType): (r: (FlowState, nat))
    requires ValidFlows(s)
    ensures ValidFlows(r.0)
    ensures r.1 == s.pending[n]
    ensures r.0.pending[n] == 0
    ensures r.0.counter == s.counter
    ensures forall c :: c != n ==> r.0.pending[c] == s.pending[c]
  {
    (FlowState(s.pending[n := 0], s.counter), s.pending[n])
  }

  lemma OpenTwiceReusesFlow(s: FlowState, n: DispatchType)
    requires ValidFlows(s)
    ensures Opened(Opened(s, n), n) == Opened(s, n)
  {
  }

  lemma CloseTwiceYieldsNoFlow(s: FlowState, n: DispatchType)
    requires ValidFlows(s)
    ensures Closed(Closed(s, n).0, n).1 == 0
  {
  }

  /** The calls a slot sender makes on its flow manager, in order. */
  datatype FlowEvent = Open(channel: DispatchType, slotIndex: uint8) | Close(channel: DispatchType)

  /** The number of closes in `events`. */
  function CloseCount(events: seq<FlowEvent>): (k: nat)
    ensures k <= |events|
    ensures k == 0 <==> forall i :: 0 <= i < |events| ==> events[i].Open?
  {
    if events == [] then 0
    else (if events[0].Close? then 1 else 0) + CloseCount(events[1..])
  }

  /** Runs `events` from `s`; gives the final state and the ids the closes
      returned, in order: exactly one id per close. */
  function Replay(s: FlowState, events: seq<FlowEvent>): (r: (FlowState, seq<nat>))
    requires ValidFlows(s)
    ensures ValidFlows(r.0)
    ensures s.counter <= r.0.counter
    ensures |r.1| == CloseCount(events) <= |events|
    decreases |events|
  {
    if events == [] then (s, [])
    else
      match events[0]
      case Open(n, _) => Replay(Opened(s, n), events[1..])
      case Close(n) =>
        var closed := Closed(s, n);
        var rest := Replay(closed.0, events[1..]);
        (rest.0, [closed.1] + rest.1)
  }

  /** Closing a channel removes exactly its id from the pending ids. */
  lemma ClosedPendingIds(s: FlowState, n: DispatchType)
    requires ValidFlows(s)
    ensures PendingIds(Closed(s, n).0) == PendingIds(s) - {s.pending[n]}
  {
    var t := Closed(s, n).0;
    forall x | x in PendingIds(s) - {s.pending[n]} ensures x in PendingIds(t) {
      var c :| c in s.pending && s.pending[c] != 0 && s.pending[c] == x;
      assert c != n && t.pending[c] == x;
    }
  }

  /** Opening a channel with no pending flow adds the fresh id. */
  lemma OpenedPendingIds(s: FlowState, n: DispatchType)
    requires ValidFlows(s)
    ensures s.pending[n] == 0 ==> PendingIds(Opened(s, n)) == PendingIds(s) + {s.counter + 1}
  {
    if s.pending[n] == 0 {
      var t := Opened(s, n);
      forall x | x in PendingIds(s) ensures x in PendingIds(t) {
        var c :| c in s.pending && s.pending[c] != 0 && s.pending[c] == x;
        assert c != n && t.pending[c] == x;
      }
      assert t.pending[n] == s.counter + 1;
    }
  }

  /** Every nonzero id a close returns was pending at the start or was
      handed out later, and no nonzero id is returned twice: two trace flows
      never share an id. */
  lemma {:induction false} ReplayClosesDistinctFlows(s: FlowState, events: seq<FlowEvent>)
    requires ValidFlows(s)
    ensures forall k :: 0 <= k < |Replay(s, events).1| && Replay(s, events).1[k] != 0 ==>
              Replay(s, events).1[k] in PendingIds(s) || s.counter < Replay(s, events).1[k]
    ensures forall j, k :: 0 <= j < k < |Replay(s, events).1| && Replay(s, events).1[j] != 0 ==>
              Replay(s, events).1[j] != Replay(s, events).1[k]
    decreases |events|
  {
    if events != [] {
      match events[0]
      case Open(n, _) =>
        ReplayClosesDistinctFlows(Opened(s, n), events[1..]);
        OpenedPendingIds(s, n);
      case Close(n) =>
        var closed := Closed(s, n);
        ReplayClosesDistinctFlows(closed.0, events[1..]);
        ClosedPendingIds(s, n);
        var ids := Replay(s, events).1;
        var rest := Replay(closed.0, events[1..]).1;
        assert ids == [closed.1] + rest;
        forall k | 0 < k < |ids| && closed.1 != 0 ensures closed.1 != ids[k] {
          assert ids[k] == rest[k - 1];
        }
    }
  }

  /** A burst on channel `n`: one open per slot index sent, then the close
      of the flush. */
  function Burst(n: DispatchType, slots: seq<uint8>): (events: seq<FlowEvent>)
    ensures |events| == |slots| + 1 && events[|slots|] == Close(n)
  {
    if slots == [] then [Close(n)] else [Open(n, slots[0])] + Burst(n, slots[1..])
  }

  /** While channel `n` has a flow pending, further opens on `n` change
      nothing, so the close that ends the burst returns that flow's id. */
  lemma {:induction false} ReopensThenClose(s: FlowState, n: DispatchType, slots: seq<uint8>)
    requires ValidFlows(s) && s.pending[n] != 0
    ensures Replay(s, Burst(n, slots)) == (Closed(s, n).0, [s.pending[n]])
    decreases |slots|
  {
    var events := Burst(n, slots);
    if slots == [] {
      assert events[1..] == [];
      assert [s.pending[n]] + [] == [s.pending[n]];
    } else {
      assert events[1..] == Burst(n, slots[1..]);
      ReopensThenClose(s, n, slots[1..]);
    }
  }

  /** A producer that sends many changes on one channel before a flush shows
      up as one flow: a burst of at least one open on an idle channel takes
      exactly one fresh id from the counter, and its close returns that id
      and leaves the channel idle again. */
  lemma BurstIsOneFlow(s: FlowState, n: DispatchType, slots: seq<uint8>)
    requires ValidFlows(s) && s.pending[n] == 0 && |slots| > 0
    ensures Replay(s, Burst(n, slots)) == (FlowState(s.pending, s.counter + 1), [s.counter + 1])
  {
    var t := Opened(s, n);
    BurstFirstOpen(s, n, slots);
    ReopensThenClose(t, n, slots[1..]);
    OpenThenCloseRestores(s, n);
  }

  /** The first open of a burst is the only step that changes the state
      before the rest of the burst runs. */
  lemma BurstFirstOpen(s: FlowState, n: DispatchType, slots: seq<uint8>)
    requires ValidFlows(s) && |slots| > 0
    ensures Replay(s, Burst(n, slots)) == Replay(Opened(s, n), Burst(n, slots[1..]))
  {
    BurstStep(n, slots);
    ReplayOpenStep(s, Burst(n, slots));
  }

  /** Opening an idle channel and closing it again gives the pending ids
      back, with the counter one further on. */
  lemma OpenThenCloseRestores(s: FlowState, n: DispatchType)
    requires ValidFlows(s) && s.pending[n] == 0
    ensures Opened(s, n).pending[n] == s.counter + 1
    ensures Closed(Opened(s, n), n).0 == FlowState(s.pending, s.counter + 1)
  {
    ResetRestores(s.pending, n, s.counter + 1);
  }

  lemma BurstStep(n: DispatchType, slots: seq<uint8>)
    requires |slots| > 0
    ensures Burst(n, slots)[0] == Open(n, slots[0])
    ensures Burst(n, slots)[1..] == Burst(n, slots[1..])
  {
  }

  /** One step of `Replay` over an open. */
  lemma ReplayOpenStep(s: FlowState, events: seq<FlowEvent>)
    requires ValidFlows(s) && events != [] && events[0].Open?
    ensures Replay(s, events) == Replay(Opened(s, events[0].channel), events[1..])
  {
  }

  /** Setting an entry that was 0 and resetting it gives the map back. */
  lemma ResetRestores(m: map<DispatchType, nat>, n: DispatchType, v: nat)
    requires n in m && m[n] == 0
    ensures m[n := v][n := 0] == m
  {
  }

  /** The root object's flow counter (`RootObject::bumpFlowCounter`), shared
      by every flow manager of one root. */
  class RootObject {
    var flowCounter: nat

    constructor ()
      ensures flowCounter == 0
    {
      flowCounter := 0;
    }

    /** Hands out a fresh, nonzero id. */
    method BumpFlowCounter() returns (id: nat)
      modifies this
      ensures flowCounter == old(flowCounter) + 1
      ensures id == flowCounter && id > 0
    {
      flowCounter := flowCounter + 1;
      id := flowCounter;
    }
  }

  /** `PerfettoFlowManager`. `tracing` selects the build: with tracing on
      the manager keeps the pending ids; with it compiled out both
      operations do nothing. */
  class FlowManager {
    const tracing: bool
    const root: RootObject
    const parentName: HashedId
    const objectName: HashedId
    var pendingFlows: map<DispatchType, nat>

    function State(): FlowState
      reads this, root
    {
      FlowState(pendingFlows, root.flowCounter)
    }

    ghost predicate Valid()
      reads this, root
    {
      && ValidFlows(State())
      && (!tracing ==> forall c :: c in pendingFlows ==> pendingFlows[c] == 0)
    }

    /** The source leaves `pendingFlows` to the container's default
        constructor; the all-zero start is assumed here. */
    constructor (tracing: bool, r: RootObject, parentId: HashedId, objectId: HashedId)
      ensures Valid()
      ensures this.tracing == tracing && root == r && parentName == parentId && objectName == objectId
      ensures pendingFlows == Filled(0)
    {
      this.tracing := tracing;
      root := r;
      parentName := parentId;
      objectName := objectId;
      pendingFlows := Filled(0);
    }

    method OpenFlow(n: DispatchType, slotIndex: uint8)
      requires Valid()
      modifies this, root
      ensures Valid()
      ensures State() == if tracing then Opened(old(State()), n) else old(State())
    {
      if tracing {
        var p := pendingFlows[n];
        if p == 0 {
          p := root.BumpFlowCounter();
          pendingFlows := pendingFlows[n := p];
        }
      }
    }

    /** Returns the id of the flow it terminates; 0 when none was pending,
        and always 0 when tracing is compiled out. */
    method CloseFlow(n: DispatchType) returns (flow: nat)
      requires Valid()
      modifies this
      ensures Valid()
      ensures tracing ==> (State(), flow) == Closed(old(State()), n)
      ensures !tracing ==> State() == old(State()) && flow == 0
    {
      if tracing {
        flow := pendingFlows[n];
        pendingFlows := pendingFlows[n := 0];
      } else {
        flow := 0;
      }
    }
  }
}
