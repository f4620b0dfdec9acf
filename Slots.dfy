/** The slot sender: the object a source uses to report that one of its
    numbered slots changed. Per channel it keeps a bitmap of dirty slots and
    a queue of listeners; it has a constant one-byte index and a constant
    hashed id by which a router finds it.

    Only `matchesPath`, `getListenerQueue`, `shutdown` and `getSlotIndex`
    have bodies in the header. `setNumSlots`, `flush` and
    `sendChangeMessage` are only declared there; `Resized`, `Drained` and
    `Marked` give them the plain bitmap semantics (resize drops bits past the
    new count, flush drains and reports, send marks one bit), which is an
    assumption of this model: their bodies are defined outside SlotSender.h. */
module Slots {
  import opened DispatchTypes

  /** A listener registration. */
  type ListenerId = nat

  /** The abstract state of a sender: per channel, the set of dirty slot
      indices (`SlotBitmap`) and the registered listeners in order (`Queue`),
      and the slot count. */
  datatype SenderState = SenderState(
    data: map<DispatchType, set<nat>>,
    queues: map<DispatchType, seq<ListenerId>>,
    numSlots: nat)

  /** Every channel has a bitmap and a queue, and only slots below the slot
      count can be dirty. */
  ghost predicate ValidState(s: SenderState) {
    && IsContainer(s.data)
    && IsContainer(s.queues)
    && (forall c, i :: c in s.data && i in s.data[c] ==> i < s.numSlots)
  }

  /** `shutdown()`: every bitmap and every queue cleared. */
  function Cleared(s: SenderState): (r: SenderState)
    ensures ValidState(r)
    ensures forall c :: r.data[c] == {} && r.queues[c] == []
    ensures r.numSlots == s.numSlots
  {
    SenderState(Filled({}), Filled([]), s.numSlots)
  }

  /** A state with every bitmap and queue empty is the cleared state with
      that slot count. */
  lemma ClearedExactly(r: SenderState, s: SenderState)
    requires IsContainer(r.data) && IsContainer(r.queues)
    requires forall c :: r.data[c] == {} && r.queues[c] == []
    requires r.numSlots == s.numSlots
    ensures r == Cleared(s)
  {
    var e := Cleared(s);
    assert r.data == e.data;
    assert r.queues == e.queues;
  }

  /** Assumed semantics of `setNumSlots(n)`: the new count holds for every
      channel, and bits at or past it are dropped. */
  function Resized(s: SenderState, newNumSlots: uint8): (r: SenderState)
    requires ValidState(s)
    ensures ValidState(r)
    ensures r.numSlots == newNumSlots
    ensures forall c, i :: i in r.data[c] <==> i in s.data[c] && i < newNumSlots
    ensures r.queues == s.queues
  {
    SenderState(map c | c in s.data :: (set i | i in s.data[c] && i < newNumSlots), s.queues, newNumSlots)
  }

  /** Assumed semantics of `sendChangeMessage(indexInSlot, notify)`: an index
      below the slot count is marked on that channel, and the result says
      whether its bit went from clear to set; an index out of range is
      ignored. */
  function Marked(s: SenderState, indexInSlot: uint8, notify: DispatchType): (r: (SenderState, bool))
    requires ValidState(s)
    ensures ValidState(r.0)
    ensures r.1 <==> indexInSlot < s.numSlots && indexInSlot !in s.data[notify]
    ensures indexInSlot < s.numSlots ==> r.0.data[notify] == s.data[notify] + {indexInSlot as nat}
    ensures indexInSlot >= s.numSlots ==> r.0 == s
    ensures forall c :: c != notify ==> r.0.data[c] == s.data[c]
    ensures r.0.queues == s.queues && r.0.numSlots == s.numSlots
  {
    if indexInSlot < s.numSlots then
      (s.(data := s.data[notify := s.data[notify] + {indexInSlot as nat}]), indexInSlot !in s.data[notify])
    else
      (s, false)
  }

  /** Assumed semantics of `flush(n)`: reports whether channel `n` had any
      dirty slot and leaves its bitmap empty. */
  function Drained(s: SenderState, n: DispatchType): (r: (SenderState, bool))
    requires ValidState(s)
    ensures ValidState(r.0)
    ensures r.1 <==> s.data[n] != {}
    ensures r.0.data[n] == {}
    ensures forall c :: c != n ==> r.0.data[c] == s.data[c]
    ensures r.0.queues == s.queues && r.0.numSlots == s.numSlots
  {
    (s.(data := s.data[n := {}]), s.data[n] != {})
  }

  lemma ShutdownIdempotent(s: SenderState)
    ensures Cleared(Cleared(s)) == Cleared(s)
  {
  }

  /** After a shutdown no channel has anything to flush. */
  lemma FlushAfterShutdownIsEmpty(s: SenderState, n: DispatchType)
    ensures !Drained(Cleared(s), n).1
  {
  }

  /** Sends the given slot indices on one channel, in order. */
  function SendAll(s: SenderState, notify: DispatchType, slots: seq<uint8>): (r: SenderState)
    requires ValidState(s)
    ensures ValidState(r)
    decreases |slots|
  {
    if slots == [] then s else SendAll(Marked(s, slots[0], notify).0, notify, slots[1..])
  }

  /** Coalescing: whatever the repeats, a run of sends on one channel leaves
      exactly the distinct in-range indices sent dirty on that channel, and
      no other channel, queue or the slot count changes. */
  lemma {:induction false} SendsCoalesce(s: SenderState, notify: DispatchType, slots: seq<uint8>)
    requires ValidState(s)
    ensures SendAll(s, notify, slots).data[notify] ==
            s.data[notify] + (set i | i in slots && i < s.numSlots :: i as nat)
    ensures forall c :: c != notify ==> SendAll(s, notify, slots).data[c] == s.data[c]
    ensures SendAll(s, notify, slots).queues == s.queues
    ensures SendAll(s, notify, slots).numSlots == s.numSlots
    decreases |slots|
  {
    if slots != [] {
      var t := Marked(s, slots[0], notify).0;
      SendsCoalesce(t, notify, slots[1..]);
      var sent := set i | i in slots && i < s.numSlots :: i as nat;
      var later := set i | i in slots[1..] && i < s.numSlots :: i as nat;
      forall x ensures x in sent <==> x in later || (x == slots[0] as nat && slots[0] < s.numSlots) {
        if x in sent {
          var i :| i in slots && i < s.numSlots && x == i as nat;
          if i != slots[0] {
            var j :| 0 <= j < |slots| && slots[j] == i;
            assert slots[1..][j - 1] == i;
            assert i in slots[1..] && i < s.numSlots;
            assert i as nat in later;
          }
        }
        if x in later {
          var i :| i in slots[1..] && i < s.numSlots && x == i as nat;
          var j :| 0 <= j < |slots[1..]| && slots[1..][j] == i;
          assert slots[j + 1] == i;
          assert i in slots && i < s.numSlots;
          assert i as nat in sent;
        }
        if x == slots[0] as nat && slots[0] < s.numSlots {
          assert slots[0] in slots;
          assert x in sent;
        }
      }
    }
  }

  /** Resizing down and up again does not bring back the bits past the
      smaller count. */
  lemma ShrinkDropsBits(s: SenderState, m: uint8, k: uint8, n: DispatchType, i: nat)
    requires ValidState(s)
    requires i >= m
    ensures i !in Resized(Resized(s, m), k).data[n]
  {
  }

  /** The worked scenario of a sender with four slots: sending slots 1, 3
      and 1 on a clean channel leaves {1, 3} dirty, the first flush reports
      pending changes and the second finds none. */
  lemma FourSlotScenario(s: SenderState, n: DispatchType)
    requires ValidState(s) && s.numSlots == 4 && s.data[n] == {}
    ensures SendAll(s, n, [1, 3, 1]).data[n] == {1, 3}
    ensures Drained(SendAll(s, n, [1, 3, 1]), n).1
    ensures !Drained(Drained(SendAll(s, n, [1, 3, 1]), n).0, n).1
  {
    SendsCoalesce(s, n, [1, 3, 1]);
    var sent := set i | i in [1, 3, 1] && i < s.numSlots :: i as nat;
    assert 1 in sent && 3 in sent;
    assert sent == {1, 3};
  }

  /** A listener queue (`Queue`). Registration, removal and delivery are
      not part of this model; only clearing it is. */
  class Queue {
    var items: seq<ListenerId>

    constructor ()
      ensures items == []
    {
      items := [];
    }

    method Clear()
      modifies this
      ensures items == []
    {
      items := [];
    }
  }

  /** `SlotSender`. `index` and `id` are constants; the bitmaps are values
      reassigned in place; the queues are objects, one per channel, that
      `GetListenerQueue` hands out to listeners. */
  class SlotSender {
    const index: uint8
    const id: HashedId
    var data: map<DispatchType, set<nat>>
    const listeners: map<DispatchType, Queue>
    var numSlots: nat

    ghost predicate Valid()
      reads this
    {
      && IsContainer(data)
      && IsContainer(listeners)
      && (forall c, i :: c in data && i in data[c] ==> i < numSlots)
      && (forall a, b :: a in listeners && b in listeners && a != b ==> listeners[a] != listeners[b])
    }

    function Queues(): map<DispatchType, seq<ListenerId>>
      reads this, listeners.Values
    {
      map c | c in listeners :: listeners[c].items
    }

    function State(): SenderState
      reads this, listeners.Values
    {
      SenderState(data, Queues(), numSlots)
    }

    /** The slot count starts at 0 and every bitmap and queue empty. */
    constructor (index: uint8, id: HashedId)
      ensures Valid()
      ensures this.index == index && this.id == id
      ensures State() == SenderState(Filled({}), Filled([]), 0)
      ensures forall c :: c in listeners ==> fresh(listeners[c])
    {
      this.index := index;
      this.id := id;
      var direct := new Queue();
      var sync := new Queue();
      var async := new Queue();
      listeners := map[SendNotification := direct, SendNotificationSync := sync, SendNotificationAsync := async];
      data := Filled({});
      numSlots := 0;
      new;
      forall c: DispatchType ensures c in listeners {
        match c
        case SendNotification =>
        case SendNotificationSync =>
        case SendNotificationAsync =>
      }
      ClearedExactly(State(), State());
    }

    method SetNumSlots(newNumSlots: uint8)
      requires Valid()
      modifies this
      ensures Valid()
      ensures State() == Resized(old(State()), newNumSlots)
    {
      data := map c | c in data :: (set i | i in data[c] && i < newNumSlots);
      numSlots := newNumSlots as nat;
    }

    method Flush(n: DispatchType := SendNotification) returns (pending: bool)
      requires Valid()
      modifies this
      ensures Valid()
      ensures (State(), pending) == Drained(old(State()), n)
    {
      pending := data[n] != {};
      data := data[n := {}];
      assert Queues() == old(Queues());
    }

    method SendChangeMessage(indexInSlot: uint8, notify: DispatchType) returns (marked: bool)
      requires Valid()
      modifies this
      ensures Valid()
      ensures (State(), marked) == Marked(old(State()), indexInSlot, notify)
    {
      if indexInSlot < numSlots {
        marked := indexInSlot !in data[notify];
        data := data[notify := data[notify] + {indexInSlot as nat}];
      } else {
        marked := false;
      }
      assert Queues() == old(Queues());
    }

    /** A path matches when it addresses this sender's id with the wildcard
        channel; a concrete channel is not implemented and never matches. The
        queried channel `n` plays no part. */
    function MatchesPath(p: HashedPath, n: DispatchType): (r: bool)
      ensures r <==> p.slot == id && p.dispatchType.IsWildcard()
    {
      if p.slot == id then
        if p.dispatchType.IsWildcard() then true
        else false
      else
        false
    }

    /** The queried channel never changes the answer. */
    lemma MatchesPathIgnoresChannel(p: HashedPath, n: DispatchType, m: DispatchType)
      ensures MatchesPath(p, n) == MatchesPath(p, m)
    {
    }

    /** The queue of channel `n`; no other channel shares it. */
    function GetListenerQueue(n: DispatchType): (q: Queue)
      requires Valid()
      reads this
      ensures q in listeners.Values && q == listeners[n]
      ensures forall c :: c in listeners && c != n ==> listeners[c] != q
    {
      listeners[n]
    }

    /** Clears every channel's bitmap, then every channel's queue. */
    method Shutdown()
      requires Valid()
      modifies this, listeners.Values
      ensures Valid()
      ensures State() == Cleared(old(State()))
    {
      AllChannelsComplete();
      for k := 0 to |AllChannels|
        invariant Valid()
        invariant forall c :: c in AllChannels[..k] ==> data[c] == {}
        invariant forall q :: q in listeners.Values ==> q.items == old(q.items)
        invariant numSlots == old(numSlots)
      {
        data := data[AllChannels[k] := {}];
      }
      assert AllChannels[..|AllChannels|] == AllChannels;
      for k := 0 to |AllChannels|
        invariant Valid()
        invariant forall c :: c in data ==> data[c] == {}
        invariant forall c :: c in AllChannels[..k] ==> listeners[c].items == []
        invariant numSlots == old(numSlots)
      {
        listeners[AllChannels[k]].Clear();
      }
      ClearedExactly(State(), old(State()));
    }

    function GetSlotIndex(): (r: uint8)
      ensures r == index
    {
      index
    }
  }
}
