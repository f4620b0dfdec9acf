/** Shared vocabulary of the dispatch core: the notification channels, the
    one-byte indices, hashed names and paths, and the per-channel container
    that holds one value for every channel. */
module DispatchTypes {

  /** An unsigned byte (`uint8`), used for sender indices and slot indices. */
  type uint8 = x: nat | x < 256

  /** The notification channels. Each one has its own dirty bitmap, its own
      listener queue and its own pending trace flow. */
  datatype DispatchType = SendNotification | SendNotificationSync | SendNotificationAsync

  /** Every channel, once each, in declaration order; a bulk `forEach` over a
      per-channel container walks this sequence. */
  const AllChannels: seq<DispatchType> := [SendNotification, SendNotificationSync, SendNotificationAsync]

  lemma AllChannelsComplete()
    ensures forall c: DispatchType :: c in AllChannels
  {
    forall c: DispatchType ensures c in AllChannels {
      match c
      case SendNotification => assert AllChannels[0] == c;
      case SendNotificationSync => assert AllChannels[1] == c;
      case SendNotificationAsync => assert AllChannels[2] == c;
    }
  }

  /** A hashed name: equality of two names is equality of their text. */
  datatype HashedId = HashedId(text: string) {
    /** The wildcard segment of a path, which stands for every channel. */
    predicate IsWildcard() {
      text == "*"
    }
  }

  /** A hashed hierarchical address: the owning source, the slot group and
      the channel being queried. It is only ever read by this core. */
  datatype HashedPath = HashedPath(source: HashedId, slot: HashedId, dispatchType: HashedId)

  /** A per-channel container (`DispatchTypeContainer<T>`) is a map that has
      an entry for every channel. */
  ghost predicate IsContainer<T>(m: map<DispatchType, T>) {
    forall c: DispatchType :: c in m
  }

  /** A container holding `v` for every channel, as freshly constructed. */
  function Filled<T>(v: T): (m: map<DispatchType, T>)
    ensures IsContainer(m)
    ensures forall c :: c in m ==> m[c] == v
  {
    AllChannelsComplete();
    map c | c in AllChannels :: v
  }
}
