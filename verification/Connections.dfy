/** Per-connection send queues and the connection manager
    (`crates/realtime-gateway/src/connection/mod.rs`, `send.rs`, `query.rs`). */
module Connections {

  /** One (event, target) pair. `id` is its place in routing order. */
  datatype Delivery = Delivery(id: nat, topic: string, sequence: nat, conn: nat, sub: string)

  datatype OverflowPolicy = DropOldest | DropNewest | Disconnect

  datatype SendResult = Sent | DroppedNewest | DroppedOldest | Disconnected | ConnectionGone

  /** A bounded queue towards one connection's writer. `taken` is what the writer has
      received so far; `closed` says that the receiver is gone. */
  datatype Connection = Connection(policy: OverflowPolicy, capacity: nat, queue: seq<Delivery>, taken: seq<Delivery>,
                                   closed: bool)

  type ConnectionMap = map<nat, Connection>

  function OverflowResult(policy: OverflowPolicy): SendResult {
    match policy
    case DropNewest => DroppedNewest
    case DropOldest => DroppedOldest
    case Disconnect => Disconnected
  }

  /** The outcome of offering a delivery to its connection. */
  function OfferResult(conns: ConnectionMap, d: Delivery): SendResult {
    if d.conn !in conns || conns[d.conn].closed then ConnectionGone
    else if |conns[d.conn].queue| < conns[d.conn].capacity then Sent
    else OverflowResult(conns[d.conn].policy)
  }

  /** The connections after a delivery was offered: the queue grows when it was sent,
      and a slow consumer under the disconnect policy is removed. */
  function AfterOffer(conns: ConnectionMap, d: Delivery): ConnectionMap {
    match OfferResult(conns, d)
    case Sent => conns[d.conn := conns[d.conn].(queue := conns[d.conn].queue + [d])]
    case Disconnected => conns - {d.conn}
    case _ => conns
  }

  /** Whatever the policy is called, a delivery is sent just when its connection is there,
      open and not full; a full one answers with its policy. */
  predicate Outcome(conns: ConnectionMap, d: Delivery, r: SendResult) {
    && (r == Sent <==> d.conn in conns && !conns[d.conn].closed && |conns[d.conn].queue| < conns[d.conn].capacity)
    && (r == ConnectionGone <==> (d.conn in conns ==> conns[d.conn].closed))
    && (r == DroppedNewest ==> conns[d.conn].policy == DropNewest)
    && (r == DroppedOldest ==> conns[d.conn].policy == DropOldest)
    && (r == Disconnected ==> conns[d.conn].policy == Disconnect)
  }

  lemma OfferExactness(conns: ConnectionMap, d: Delivery)
    ensures Outcome(conns, d, OfferResult(conns, d))
    ensures forall r :: Outcome(conns, d, r) ==> r == OfferResult(conns, d)
    ensures OfferResult(conns, d) == Sent ==>
              AfterOffer(conns, d) == conns[d.conn := conns[d.conn].(queue := conns[d.conn].queue + [d])]
  {
  }

  /** Offering to one connection changes nothing on any other, and a full queue is never
      altered, whatever the policy is called. */
  lemma OfferIsIsolated(conns: ConnectionMap, d: Delivery, c: nat)
    requires c in conns
    ensures c != d.conn ==> c in AfterOffer(conns, d) && AfterOffer(conns, d)[c] == conns[c]
    ensures |conns[c].queue| >= conns[c].capacity && c in AfterOffer(conns, d) ==> AfterOffer(conns, d)[c] == conns[c]
    ensures c !in AfterOffer(conns, d) <==>
            c == d.conn && !conns[c].closed && |conns[c].queue| >= conns[c].capacity && conns[c].policy == Disconnect
  {
  }

  class ConnectionManager {
    var connections: ConnectionMap
    var nextConnId: nat
    const sendQueueCapacity: nat

    /** Ids are handed out before they are registered. */
    ghost predicate Valid()
      reads this
    {
      && (forall c :: c in connections ==> 1 <= c < nextConnId)
      && (forall c :: c in connections ==> |connections[c].queue| <= connections[c].capacity == sendQueueCapacity)
    }

    constructor (sendQueueCapacity: nat)
      ensures Valid() && connections == map[] && nextConnId == 1 && this.sendQueueCapacity == sendQueueCapacity
    {
      this.sendQueueCapacity := sendQueueCapacity;
      connections, nextConnId := map[], 1;
    }

    /** A connection id no earlier call returned and no registration used. */
    method NextConnectionId() returns (id: nat)
      requires Valid()
      modifies this`nextConnId
      ensures Valid() && id == old(nextConnId) && nextConnId == id + 1
      ensures id !in connections
    {
      id := nextConnId;
      nextConnId := nextConnId + 1;
    }

    method Register(conn: nat, policy: OverflowPolicy)
      requires Valid() && 1 <= conn < nextConnId
      modifies this`connections
      ensures Valid()
      ensures connections == old(connections)[conn := Connection(policy, sendQueueCapacity, [], [], false)]
    {
      connections := connections[conn := Connection(policy, sendQueueCapacity, [], [], false)];
    }

    method Remove(conn: nat)
      requires Valid()
      modifies this`connections
      ensures Valid() && connections == old(connections) - {conn}
    {
      connections := connections - {conn};
    }

    method TrySend(d: Delivery) returns (r: SendResult)
      requires Valid()
      modifies this`connections
      ensures Valid()
      ensures r == OfferResult(old(connections), d)
      ensures r == Sent ==> connections == AfterOffer(old(connections), d)
      ensures r != Sent ==> connections == old(connections)
      ensures Outcome(old(connections), d, r)
      ensures r == Sent ==> d.conn in connections && connections[d.conn].queue == old(connections)[d.conn].queue + [d]
    {
      if d.conn !in connections {
        return ConnectionGone;
      }
      var state := connections[d.conn];
      if state.closed {
        return ConnectionGone;
      }
      if |state.queue| < state.capacity {
        connections := connections[d.conn := state.(queue := state.queue + [d])];
        return Sent;
      }
      return OverflowResult(state.policy);
    }

    /** What a fan-out worker does with one delivery. */
    method HandleDispatch(d: Delivery, metrics: Metrics)
      requires Valid()
      modifies this`connections, metrics
      ensures Valid()
      ensures connections == AfterOffer(old(connections), d)
      ensures metrics.Snapshot() == AfterCounting(old(metrics.Snapshot()), OfferResult(old(connections), d))
      ensures var r := OfferResult(old(connections), d);
              && metrics.dispatched == old(metrics.dispatched) + (if r == Sent then 1 else 0)
              && metrics.droppedOverflow ==
                 old(metrics.droppedOverflow) + (if r == DroppedNewest || r == DroppedOldest then 1 else 0)
              && metrics.slowDisconnected == old(metrics.slowDisconnected) + (if r == Disconnected then 1 else 0)
              && metrics.connectionGone == old(metrics.connectionGone) + (if r == ConnectionGone then 1 else 0)
    {
      var r := TrySend(d);
      match r
      case Sent => metrics.dispatched := metrics.dispatched + 1;
      case DroppedNewest => metrics.droppedOverflow := metrics.droppedOverflow + 1;
      case DroppedOldest => metrics.droppedOverflow := metrics.droppedOverflow + 1;
      case Disconnected =>
        metrics.slowDisconnected := metrics.slowDisconnected + 1;
        Remove(d.conn);
      case ConnectionGone => metrics.connectionGone := metrics.connectionGone + 1;
    }
  }

  datatype Counts = Counts(dispatched: nat, droppedOverflow: nat, slowDisconnected: nat, connectionGone: nat)

  function AfterCounting(c: Counts, r: SendResult): Counts {
    match r
    case Sent => c.(dispatched := c.dispatched + 1)
    case DroppedNewest => c.(droppedOverflow := c.droppedOverflow + 1)
    case DroppedOldest => c.(droppedOverflow := c.droppedOverflow + 1)
    case Disconnected => c.(slowDisconnected := c.slowDisconnected + 1)
    case ConnectionGone => c.(connectionGone := c.connectionGone + 1)
  }

  class Metrics {
    var dispatched: nat
    var droppedOverflow: nat
    var slowDisconnected: nat
    var connectionGone: nat

    function Snapshot(): Counts
      reads this
    {
      Counts(dispatched, droppedOverflow, slowDisconnected, connectionGone)
    }

    constructor ()
      ensures Snapshot() == Counts(0, 0, 0, 0)
    {
      dispatched, droppedOverflow, slowDisconnected, connectionGone := 0, 0, 0, 0;
    }
  }
}
