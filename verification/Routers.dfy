/** Sequence numbers, the dispatch channel and event routing
    (`crates/realtime-engine/src/sequence.rs`, `router.rs`). */
module Routers {
  import opened Filters
  import opened IndexState
  import opened IndexUpdates
  import opened RegistryState
  import opened FilterIndexes
  import opened Registries
  import opened Connections
  import CB = CircuitBreakers

  type Target = (nat, string)
  /** All deliveries of one event, as one message. */
  type Batch = seq<Delivery>

  const CHANNEL_CAPACITY: nat := 65536

  /** Telemetry of the dispatch pipeline. */
  datatype Counters = Counters(
    eventsRouted: nat,
    matchesDispatched: nat,
    dispatchFailures: nat,
    batchesSent: nat,
    emptyRoutes: nat,
    largestBatch: nat)

  const NO_ROUTES := Counters(0, 0, 0, 0, 0, 0)

  /** What a routing call reads and writes. */
  datatype Routing = Routing(sequences: map<string, nat>, counters: Counters, channel: seq<Batch>, connected: bool)

  function SequenceAt(sequences: map<string, nat>, topic: string): nat {
    if topic in sequences then sequences[topic] else 0
  }

  /** The batch of one event: one delivery per target, numbered on from `first`. */
  function BatchFor(first: nat, topic: string, sequence: nat, targets: seq<Target>): (b: Batch)
    ensures |b| == |targets|
  {
    seq(|targets|, i requires 0 <= i < |targets| => Delivery(first + i, topic, sequence, targets[i].0, targets[i].1))
  }

  predicate DistinctTargets(targets: seq<Target>) {
    forall i, j :: 0 <= i < j < |targets| ==> targets[i] != targets[j]
  }

  predicate ChannelAccepts(r: Routing) {
    r.connected && |r.channel| < CHANNEL_CAPACITY
  }

  function NextBatch(r: Routing, topic: string, targets: seq<Target>): Batch {
    BatchFor(r.counters.matchesDispatched, topic, SequenceAt(r.sequences, topic) + 1, targets)
  }

  function AfterCounters(c: Counters, count: nat, accepted: bool): Counters {
    var c' := c.(eventsRouted := c.eventsRouted + 1, matchesDispatched := c.matchesDispatched + count);
    if count == 0 then c'.(emptyRoutes := c.emptyRoutes + 1)
    else
      var c'' := c'.(largestBatch := if count > c.largestBatch then count else c.largestBatch);
      if accepted then c''.(batchesSent := c.batchesSent + 1) else c''.(dispatchFailures := c.dispatchFailures + 1)
  }

  /** The effect of routing one event to `targets`: at most one message, all or nothing. */
  function AfterRoute(r: Routing, topic: string, targets: seq<Target>): Routing {
    Routing(
      r.sequences[topic := SequenceAt(r.sequences, topic) + 1],
      AfterCounters(r.counters, |targets|, ChannelAccepts(r)),
      if targets != [] && ChannelAccepts(r) then r.channel + [NextBatch(r, topic, targets)] else r.channel,
      r.connected)
  }

  /** Every routed event was empty, sent as one batch, or refused. */
  predicate Balanced(c: Counters) {
    c.eventsRouted == c.emptyRoutes + c.batchesSent + c.dispatchFailures
  }

  function TargetsOf(matches: seq<Match>): (targets: seq<Target>)
    ensures |targets| == |matches|
    ensures forall i :: 0 <= i < |matches| ==> targets[i] == (matches[i].conn, matches[i].sub)
  {
    seq(|matches|, i requires 0 <= i < |matches| => (matches[i].conn, matches[i].sub))
  }

  /** What the index delivers addresses no subscription twice. */
  lemma DeliveredTargetsAreDistinct(live: Live, e: Event, delivered: seq<Match>, degraded: bool)
    requires KeyedByOwner(live)
    requires multiset(delivered) == multiset(if degraded then DegradedMatches(live, e) else IndexedMatches(live, e))
    ensures DistinctTargets(TargetsOf(delivered))
  {
    var found := if degraded then DegradedMatches(live, e) else IndexedMatches(live, e);
    DistinctFromSet(delivered, found);
    forall i | 0 <= i < |delivered|
      ensures SubKey(delivered[i].conn, delivered[i].sub) in live
      ensures delivered[i] == MatchOf(live[SubKey(delivered[i].conn, delivered[i].sub)])
    {
      assert delivered[i] in multiset(delivered);
      assert delivered[i] in found;
    }
  }

  /** The batch tells each match of the event, in order, with the event's topic and number. */
  ghost predicate Addresses(batch: Batch, matches: seq<Match>, topic: string, sequence: nat) {
    |batch| == |matches| &&
    forall i :: 0 <= i < |matches| ==>
                  && batch[i].conn == matches[i].conn && batch[i].sub == matches[i].sub
                  && batch[i].topic == topic && batch[i].sequence == sequence
  }

  lemma BatchAddresses(first: nat, matches: seq<Match>, topic: string, sequence: nat)
    ensures Addresses(BatchFor(first, topic, sequence, TargetsOf(matches)), matches, topic, sequence)
  {
  }

  class SequenceGenerator {
    var sequences: map<string, nat>

    constructor ()
      ensures sequences == map[]
    {
      sequences := map[];
    }

    method Next(topic: string) returns (n: nat)
      modifies this
      ensures n == SequenceAt(old(sequences), topic) + 1
      ensures sequences == old(sequences)[topic := n]
    {
      if topic !in sequences {
        sequences := sequences[topic := 0];
      }
      n := sequences[topic] + 1;
      sequences := sequences[topic := n];
    }

    method Current(topic: string) returns (n: nat)
      ensures n == SequenceAt(sequences, topic)
    {
      n := if topic in sequences then sequences[topic] else 0;
    }
  }

  class EventRouter {
    const registry: SubscriptionRegistry
    const sequenceGen: SequenceGenerator
    var channel: seq<Batch>
    var connected: bool
    var counters: Counters

    constructor (registry: SubscriptionRegistry, sequenceGen: SequenceGenerator)
      ensures this.registry == registry && this.sequenceGen == sequenceGen
      ensures State() == Routing(sequenceGen.sequences, NO_ROUTES, [], true)
    {
      this.registry, this.sequenceGen := registry, sequenceGen;
      channel, connected, counters := [], true, NO_ROUTES;
    }

    ghost function State(): Routing
      reads this, sequenceGen
    {
      Routing(sequenceGen.sequences, counters, channel, connected)
    }

    method UpdateLargestBatch(size: nat)
      modifies this`counters
      ensures counters == old(counters).(largestBatch := if size > old(counters).largestBatch then size
                                         else old(counters).largestBatch)
    {
      var current := counters.largestBatch;
      if size > current {
        counters := counters.(largestBatch := size);
      }
    }

    /** Offers the batch of one event to the dispatcher and accounts for it. */
    method Dispatch(batch: Batch)
      modifies this`counters, this`channel
      ensures counters == AfterCounters(old(counters), |batch|, old(ChannelAccepts(State())))
      ensures channel == if batch != [] && connected && |old(channel)| < 65536 then old(channel) + [batch]
                         else old(channel)
      ensures counters.eventsRouted == old(counters).eventsRouted + 1
      ensures counters.matchesDispatched == old(counters).matchesDispatched + |batch|
      ensures counters.emptyRoutes == old(counters).emptyRoutes + (if batch == [] then 1 else 0)
      ensures counters.batchesSent == old(counters).batchesSent + |channel| - |old(channel)|
      ensures counters.dispatchFailures ==
              old(counters).dispatchFailures + (if batch != [] && channel == old(channel) then 1 else 0)
      ensures counters.largestBatch == if |batch| > old(counters).largestBatch then |batch|
                                       else old(counters).largestBatch
      ensures old(Balanced(counters)) ==> Balanced(counters)
    {
      counters := counters.(eventsRouted := counters.eventsRouted + 1,
                            matchesDispatched := counters.matchesDispatched + |batch|);
      if |batch| == 0 {
        counters := counters.(emptyRoutes := counters.emptyRoutes + 1);
      } else {
        UpdateLargestBatch(|batch|);
        if connected && |channel| < CHANNEL_CAPACITY {
          channel := channel + [batch];
          counters := counters.(batchesSent := counters.batchesSent + 1);
        } else {
          counters := counters.(dispatchFailures := counters.dispatchFailures + 1);
        }
      }
    }

    /** Assigns the next sequence number and hands all matches to the dispatcher as one
        message. The targets are the index's matches, each once. */
    method RouteEvent(e: Event, clock: Clock) returns (count: nat, ghost matches: seq<Match>)
      requires registry.Valid() && registry.filterIndex.Clean()
      modifies this, sequenceGen, registry.filterIndex.breaker, registry.filterIndex.stats
      ensures registry.Valid()
      ensures State() == AfterRoute(old(State()), e.topic, TargetsOf(matches))
      ensures DistinctTargets(TargetsOf(matches))
      ensures count == |matches|
      ensures if matches != [] && old(connected) && |old(channel)| < 65536
              then |channel| == |old(channel)| + 1 && channel[..|old(channel)|] == old(channel)
                   && Addresses(channel[|old(channel)|], matches, e.topic,
                                SequenceAt(old(sequenceGen.sequences), e.topic) + 1)
              else channel == old(channel)
      ensures var index := registry.filterIndex;
              multiset(matches) ==
              multiset(old(index.Found(e, CB.Degrades(index.breaker.cfg, index.breaker.State(), clock.checkedAtMs))))
      ensures old(Balanced(counters)) ==> Balanced(counters)
    {
      hide DataOk, CapsOk, IndexUpdates.Contents, IndexedMatches, DegradedMatches, MapsAgree, AsSlots,
           ConnectionCapHolds, CleanNames, AfterCounters, Balanced, DistinctTargets, KeyedByOwner, Addresses;
      ghost var live := Contents(registry.filterIndex.Data());
      ghost var degraded := CB.Degrades(registry.filterIndex.breaker.cfg, registry.filterIndex.breaker.State(),
                                        clock.checkedAtMs);
      var sequence := sequenceGen.Next(e.topic);
      var delivered;
      delivered, count := registry.filterIndex.ForEachMatch(e, clock);
      matches := delivered;
      ContentsAreKeyed(registry.filterIndex.Data());
      DeliveredTargetsAreDistinct(live, e, delivered, degraded);
      BatchAddresses(counters.matchesDispatched, delivered, e.topic, sequence);
      Dispatch(BatchFor(counters.matchesDispatched, e.topic, sequence, TargetsOf(delivered)));
    }
  }
}
