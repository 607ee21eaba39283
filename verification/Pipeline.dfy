/** The delivery pipeline as interleaved steps: router, dispatcher, workers, and
    connections that come and go (`crates/realtime-gateway/src/fanout.rs`,
    `crates/realtime-engine/src/router.rs`, `crates/realtime-gateway/src/connection/`). */
module Pipeline {
  import opened Connections
  import opened Routers

  const WORKER_CAPACITY: nat := 8192
  const USIZE_RANGE: nat := 0x1_0000_0000_0000_0000

  /** What a worker still has to do about the delivery it offered last. */
  datatype Duty = Free | Counting(result: SendResult, conn: nat) | Evicting(conn: nat)

  /** A disconnected client is evicted once counted. */
  function AfterCount(duty: Duty): Duty
    requires duty.Counting?
  {
    if duty.result == Disconnected then Evicting(duty.conn) else Free
  }

  datatype Worker = Worker(queue: seq<Batch>, current: Batch, duty: Duty, alive: bool)

  /** How one delivery ended, and at whose hands. */
  datatype Handled = Handled(worker: nat, delivery: Delivery, result: SendResult)

  /** `hand` is the batch the dispatcher has taken and not yet passed on, if any; `gone`
      holds the removed connections, whose writers may still drain their queues. The last
      five fields record the past: sequence numbers given out, pairs routed, pairs of
      refused batches, pairs that died with a task, and outcomes. */
  datatype State = State(
    routing: Routing,
    hand: seq<Batch>,
    next: nat,
    workers: seq<Worker>,
    conns: ConnectionMap,
    gone: ConnectionMap,
    nextConn: nat,
    opening: set<nat>,
    sendCapacity: nat,
    metrics: Counts,
    events: seq<(string, nat)>,
    routed: seq<Delivery>,
    failed: seq<Delivery>,
    lost: seq<Delivery>,
    outcomes: seq<Handled>)

  datatype Action =
    | Route(topic: string, targets: seq<Target>)
    | Take
    | Give
    | DispatcherStops
    | Pull(worker: nat)
    | Offer(worker: nat)
    | Count(worker: nat)
    | Evict(worker: nat)
    | WorkerStops(worker: nat)
    | AllocateId
    | Register(conn: nat, policy: OverflowPolicy)
    | Consume(conn: nat)
    | HangUp(conn: nat)
    | Remove(conn: nat)

  function Flat(batches: seq<Batch>): seq<Delivery> {
    if batches == [] then [] else batches[0] + Flat(batches[1..])
  }

  /** Both ends of a connection's queue: its sender is registered, or its receiver drains. */
  predicate Known(s: State, c: nat) {
    c in s.conns || c in s.gone
  }

  function ConnectionAt(s: State, c: nat): Connection
    requires Known(s, c)
  {
    if c in s.conns then s.conns[c] else s.gone[c]
  }

  function WithConnection(s: State, c: nat, conn: Connection): State
    requires Known(s, c)
  {
    if c in s.conns then s.(conns := s.conns[c := conn]) else s.(gone := s.gone[c := conn])
  }

  /** The sender of a connection's queue is dropped. */
  function Retire(s: State, c: nat): State {
    if c in s.conns then s.(conns := s.conns - {c}, gone := s.gone[c := s.conns[c]]) else s
  }

  predicate Working(s: State, w: nat) {
    w < |s.workers| && s.workers[w].alive
  }

  /** One atomic step of some task. */
  predicate Step(s: State, s': State, a: Action) {
    match a
    case Route(topic, targets) => RouteStep(s, s', topic, targets)
    case Take =>
      && s.routing.connected && s.hand == [] && s.routing.channel != []
      && s' == s.(hand := [s.routing.channel[0]], routing := s.routing.(channel := s.routing.channel[1..]))
    case Give => GiveStep(s, s')
    case DispatcherStops =>
      s' == s.(routing := s.routing.(connected := false, channel := []), hand := [],
               lost := s.lost + Flat(s.hand) + Flat(s.routing.channel))
    case Pull(w) => PullStep(s, s', w)
    case Offer(w) => OfferStep(s, s', w)
    case Count(w) =>
      && Working(s, w) && s.workers[w].duty.Counting?
      && var duty := s.workers[w].duty;
         s' == s.(metrics := AfterCounting(s.metrics, duty.result),
                  workers := s.workers[w := s.workers[w].(duty := AfterCount(duty))])
    case Evict(w) =>
      && Working(s, w) && s.workers[w].duty.Evicting?
      && s' == Retire(s, s.workers[w].duty.conn).(workers := s.workers[w := s.workers[w].(duty := Free)])
    case WorkerStops(w) =>
      && Working(s, w)
      && s' == s.(workers := s.workers[w := s.workers[w].(queue := [], current := [], alive := false)],
                  lost := s.lost + s.workers[w].current + Flat(s.workers[w].queue))
    case AllocateId => s' == s.(nextConn := s.nextConn + 1, opening := s.opening + {s.nextConn})
    case Register(c, policy) =>
      && c in s.opening
      && s' == s.(opening := s.opening - {c}, conns := s.conns[c := Connection(policy, s.sendCapacity, [], [], false)])
    case Consume(c) =>
      && Known(s, c) && !ConnectionAt(s, c).closed && ConnectionAt(s, c).queue != []
      && var conn := ConnectionAt(s, c);
         s' == WithConnection(s, c, conn.(queue := conn.queue[1..], taken := conn.taken + [conn.queue[0]]))
    case HangUp(c) => Known(s, c) && s' == WithConnection(s, c, ConnectionAt(s, c).(closed := true))
    case Remove(c) => s' == Retire(s, c)
  }

  predicate RouteStep(s: State, s': State, topic: string, targets: seq<Target>) {
    && DistinctTargets(targets)
    && var batch := NextBatch(s.routing, topic, targets);
       s' == s.(routing := AfterRoute(s.routing, topic, targets),
                events := s.events + [(topic, SequenceAt(s.routing.sequences, topic) + 1)],
                routed := s.routed + batch,
                failed := if ChannelAccepts(s.routing) then s.failed else s.failed + batch)
  }

  /** Round robin; waits while the chosen worker's queue is full. */
  predicate GiveStep(s: State, s': State) {
    && s.workers != [] && |s.hand| == 1
    && var w := s.next % |s.workers|;
       var moved := s.(hand := [], next := (s.next + 1) % USIZE_RANGE);
       if s.workers[w].alive then
         && |s.workers[w].queue| < WORKER_CAPACITY
         && s' == moved.(workers := s.workers[w := s.workers[w].(queue := s.workers[w].queue + s.hand)])
       else s' == moved.(lost := s.lost + s.hand[0])
  }

  predicate PullStep(s: State, s': State, w: nat) {
    && Working(s, w) && s.workers[w].duty == Free && s.workers[w].current == [] && s.workers[w].queue != []
    && var worker := s.workers[w];
       s' == s.(workers := s.workers[w := worker.(current := worker.queue[0], queue := worker.queue[1..])])
  }

  predicate OfferStep(s: State, s': State, w: nat) {
    && Working(s, w) && s.workers[w].duty == Free && s.workers[w].current != []
    && var worker := s.workers[w];
       var d := worker.current[0];
       var r := OfferResult(s.conns, d);
       s' == s.(conns := if r == Sent then AfterOffer(s.conns, d) else s.conns,
                workers := s.workers[w := worker.(current := worker.current[1..], duty := Counting(r, d.conn))],
                outcomes := s.outcomes + [Handled(w, d, r)])
  }

  predicate Init(s: State) {
    && s.routing == Routing(map[], NO_ROUTES, [], true)
    && s.hand == [] && s.next == 0
    && s.workers != [] && (forall w :: 0 <= w < |s.workers| ==> s.workers[w] == Worker([], [], Free, true))
    && s.conns == map[] && s.gone == map[] && s.nextConn == 1 && s.opening == {}
    && s.metrics == Counts(0, 0, 0, 0)
    && s.events == [] && s.routed == [] && s.failed == [] && s.lost == [] && s.outcomes == []
  }

  ghost predicate Next(s: State, s': State) {
    exists a :: Step(s, s', a)
  }

  ghost predicate IsRun(run: seq<State>) {
    |run| > 0 && Init(run[0]) && forall n :: 0 <= n < |run| - 1 ==> Next(run[n], run[n + 1])
  }

  // ---------- Helpers ----------

  lemma {:induction false} FlatAppend(a: seq<Batch>, b: Batch)
    ensures Flat(a + [b]) == Flat(a) + b
  {
    if a == [] {
      assert [b][1..] == [];
    } else {
      FlatAppend(a[1..], b);
      assert (a + [b])[1..] == a[1..] + [b];
    }
  }

  /** How often `x` occurs in a list. */
  ghost function Occurrences<T>(items: seq<T>, x: T): nat {
    multiset(items)[x]
  }

  lemma OccurrencesAppend<T>(a: seq<T>, b: seq<T>, x: T)
    ensures Occurrences(a + b, x) == Occurrences(a, x) + Occurrences(b, x)
  {
  }

  // ---------- Conservation ----------

  ghost function HeldBy(w: Worker, d: Delivery): nat {
    Occurrences(w.current, d) + Occurrences(Flat(w.queue), d)
  }

  ghost function HeldByAll(workers: seq<Worker>, d: Delivery): nat {
    if workers == [] then 0 else HeldBy(workers[0], d) + HeldByAll(workers[1..], d)
  }

  lemma {:induction false} HeldUpdate(workers: seq<Worker>, w: nat, worker: Worker, d: Delivery)
    requires w < |workers|
    ensures HeldByAll(workers[w := worker], d) + HeldBy(workers[w], d) == HeldByAll(workers, d) + HeldBy(worker, d)
  {
    var updated := workers[w := worker];
    if w == 0 {
      assert updated[1..] == workers[1..];
    } else {
      assert updated[1..] == workers[1..][w - 1 := worker];
      HeldUpdate(workers[1..], w - 1, worker, d);
    }
  }

  lemma {:induction false} NothingHeld(workers: seq<Worker>, d: Delivery)
    requires forall w :: 0 <= w < |workers| ==> workers[w].queue == [] && workers[w].current == []
    ensures HeldByAll(workers, d) == 0
  {
    if workers != [] {
      NothingHeld(workers[1..], d);
    }
  }

  function Deliveries(outcomes: seq<Handled>): (ds: seq<Delivery>)
    ensures |ds| == |outcomes|
  {
    seq(|outcomes|, i requires 0 <= i < |outcomes| => outcomes[i].delivery)
  }

  /** How often a pair occurs over all the places a pair can be. */
  ghost function Places(s: State, d: Delivery): nat {
    Occurrences(s.failed, d) + Occurrences(s.lost, d) + Occurrences(Flat(s.routing.channel), d)
        + Occurrences(Flat(s.hand), d)
    + HeldByAll(s.workers, d) + Occurrences(Deliveries(s.outcomes), d)
  }

  ghost predicate Conserved(s: State) {
    forall d :: Places(s, d) == Occurrences(s.routed, d)
  }

  lemma HeadAndTail(batches: seq<Batch>)
    requires batches != []
    ensures Flat(batches) == batches[0] + Flat(batches[1..])
    ensures Flat([batches[0]]) == batches[0]
  {
    assert [batches[0]][1..] == [];
  }

  lemma TakeConserves(s: State, s': State, d: Delivery)
    requires Places(s, d) == Occurrences(s.routed, d) && Step(s, s', Take)
    ensures Places(s', d) == Occurrences(s'.routed, d)
  {
    hide Occurrences, Deliveries, HeldByAll;
    HeadAndTail(s.routing.channel);
    OccurrencesAppend(s.routing.channel[0], Flat(s.routing.channel[1..]), d);
    NoOccurrence(d);
  }

  lemma DispatcherStopConserves(s: State, s': State, d: Delivery)
    requires Places(s, d) == Occurrences(s.routed, d) && Step(s, s', DispatcherStops)
    ensures Places(s', d) == Occurrences(s'.routed, d)
  {
    hide Occurrences, Deliveries, HeldByAll;
    OccurrencesAppend(s.lost + Flat(s.hand), Flat(s.routing.channel), d);
    OccurrencesAppend(s.lost, Flat(s.hand), d);
    NoOccurrence(d);
  }

  lemma PullConserves(s: State, s': State, w: nat, d: Delivery)
    requires Places(s, d) == Occurrences(s.routed, d) && PullStep(s, s', w)
    ensures Places(s', d) == Occurrences(s'.routed, d)
  {
    hide Occurrences, Deliveries, HeldByAll;
    var queue := s.workers[w].queue;
    HeadAndTail(queue);
    OccurrencesAppend(queue[0], Flat(queue[1..]), d);
    NoOccurrence(d);
    HeldUpdate(s.workers, w, s'.workers[w], d);
  }

  lemma WorkerStopConserves(s: State, s': State, w: nat, d: Delivery)
    requires Places(s, d) == Occurrences(s.routed, d) && Step(s, s', WorkerStops(w))
    ensures Places(s', d) == Occurrences(s'.routed, d)
  {
    hide Occurrences, Deliveries, HeldByAll;
    OccurrencesAppend(s.lost + s.workers[w].current, Flat(s.workers[w].queue), d);
    OccurrencesAppend(s.lost, s.workers[w].current, d);
    NoOccurrence(d);
    HeldUpdate(s.workers, w, s'.workers[w], d);
  }

  lemma StepConserves(s: State, s': State, a: Action, d: Delivery)
    requires Places(s, d) == Occurrences(s.routed, d) && Step(s, s', a)
    ensures Places(s', d) == Occurrences(s'.routed, d)
  {
    hide RouteStep, GiveStep, PullStep, OfferStep, Occurrences, Deliveries;
    match a
    case Route(topic, targets) => RouteConserves(s, s', topic, targets, d);
    case Take => TakeConserves(s, s', d);
    case Give => GiveConserves(s, s', d);
    case DispatcherStops => DispatcherStopConserves(s, s', d);
    case Pull(w) => PullConserves(s, s', w, d);
    case Offer(w) => OfferConserves(s, s', w, d);
    case Count(w) => HeldUpdate(s.workers, w, s'.workers[w], d);
    case Evict(w) => HeldUpdate(s.workers, w, s'.workers[w], d);
    case WorkerStops(w) => WorkerStopConserves(s, s', w, d);
    case _ =>
  }

  lemma NoOccurrence(d: Delivery)
    ensures Occurrences([], d) == 0
  {
  }

  lemma RouteConserves(s: State, s': State, topic: string, targets: seq<Target>, d: Delivery)
    requires Places(s, d) == Occurrences(s.routed, d) && RouteStep(s, s', topic, targets)
    ensures Places(s', d) == Occurrences(s'.routed, d)
  {
    hide Occurrences, Deliveries, NextBatch, DistinctTargets;
    var batch := NextBatch(s.routing, topic, targets);
    OccurrencesAppend(s.routed, batch, d);
    OccurrencesAppend(s.failed, batch, d);
    FlatAppend(s.routing.channel, batch);
    OccurrencesAppend(Flat(s.routing.channel), batch, d);
    EmptyBatch(s.routing, topic, targets);
    NoOccurrence(d);
  }

  lemma EmptyBatch(r: Routing, topic: string, targets: seq<Target>)
    ensures targets == [] ==> NextBatch(r, topic, targets) == []
  {
  }

  lemma GiveConserves(s: State, s': State, d: Delivery)
    requires Places(s, d) == Occurrences(s.routed, d) && GiveStep(s, s')
    ensures Places(s', d) == Occurrences(s'.routed, d)
  {
    hide Occurrences, Deliveries;
    var w := s.next % |s.workers|;
    assert s.hand == [s.hand[0]];
    HeadAndTail(s.hand);
    NoOccurrence(d);
    if s.workers[w].alive {
      FlatAppend(s.workers[w].queue, s.hand[0]);
      OccurrencesAppend(Flat(s.workers[w].queue), s.hand[0], d);
      HeldUpdate(s.workers, w, s'.workers[w], d);
    } else {
      OccurrencesAppend(s.lost, s.hand[0], d);
    }
  }

  lemma OfferConserves(s: State, s': State, w: nat, d: Delivery)
    requires Places(s, d) == Occurrences(s.routed, d) && OfferStep(s, s', w)
    ensures Places(s', d) == Occurrences(s'.routed, d)
  {
    hide Occurrences, OfferResult, AfterOffer;
    var current := s.workers[w].current;
    assert current == [current[0]] + current[1..];
    OccurrencesAppend([current[0]], current[1..], d);
    assert Deliveries(s'.outcomes) == Deliveries(s.outcomes) + [current[0]];
    OccurrencesAppend(Deliveries(s.outcomes), [current[0]], d);
    HeldUpdate(s.workers, w, s'.workers[w], d);
  }

  // ---------- Sequence numbers ----------

  /** The numbers given to the events of one topic, in routing order. */
  function NumbersOf(events: seq<(string, nat)>, topic: string): seq<nat> {
    if events == [] then []
    else
      var last := events[|events| - 1];
      NumbersOf(events[..|events| - 1], topic) + (if last.0 == topic then [last.1] else [])
  }

  ghost predicate CountsUp(numbers: seq<nat>) {
    forall i :: 0 <= i < |numbers| ==> numbers[i] == i + 1
  }

  ghost predicate SequencesOk(s: State) {
    && s.routing.counters.eventsRouted == |s.events|
    && Balanced(s.routing.counters)
    && forall t :: NumberedOk(s, t)
  }

  ghost predicate NumberedOk(s: State, topic: string) {
    && CountsUp(NumbersOf(s.events, topic))
    && |NumbersOf(s.events, topic)| == SequenceAt(s.routing.sequences, topic)
  }

  lemma NumbersExtend(events: seq<(string, nat)>, x: (string, nat), topic: string)
    ensures NumbersOf(events + [x], topic) == NumbersOf(events, topic) + (if x.0 == topic then [x.1] else [])
  {
    assert (events + [x])[..|events|] == events;
  }

  lemma StepKeepsSequences(s: State, s': State, a: Action)
    requires SequencesOk(s) && Step(s, s', a)
    ensures SequencesOk(s')
  {
    hide NumbersOf, BatchFor, DistinctTargets, OfferStep, PullStep, GiveStep;
    if !a.Route? {
      OnlyRoutingAssigns(s, s', a);
      assert forall t :: NumberedOk(s, t) ==> NumberedOk(s', t);
    } else {
      var x := (a.topic, SequenceAt(s.routing.sequences, a.topic) + 1);
      forall t ensures NumberedOk(s', t) {
        NumbersExtend(s.events, x, t);
        assert NumberedOk(s, t);
      }
    }
  }

  lemma OnlyRoutingAssigns(s: State, s': State, a: Action)
    requires Step(s, s', a) && !a.Route?
    ensures s'.events == s.events && s'.routed == s.routed
    ensures s'.routing.counters == s.routing.counters && s'.routing.sequences == s.routing.sequences
  {
  }

  // ---------- What was routed ----------

  /** Later pairs of a topic carry later numbers; pairs of one event differ in target. */
  predicate Follows(d: Delivery, e: Delivery) {
    d.topic == e.topic ==> d.sequence < e.sequence || (d.sequence == e.sequence && (d.conn, d.sub) != (e.conn, e.sub))
  }

  ghost predicate RoutedOk(s: State) {
    && s.routing.counters.matchesDispatched == |s.routed|
    && (forall i :: 0 <= i < |s.routed| ==>
                      s.routed[i].id == i && s.routed[i].sequence <= SequenceAt(s.routing.sequences, s.routed[i].topic))
    && (forall i, j :: 0 <= i < j < |s.routed| ==> Follows(s.routed[i], s.routed[j]))
  }

  lemma StepKeepsRouted(s: State, s': State, a: Action)
    requires RoutedOk(s) && Step(s, s', a)
    ensures RoutedOk(s')
  {
    if !a.Route? {
      OnlyRoutingAssigns(s, s', a);
    } else {
      var n := |s.routed|;
      forall i, j | 0 <= i < j < |s'.routed| ensures Follows(s'.routed[i], s'.routed[j]) {
        if i < n && j < n {
          assert Follows(s.routed[i], s.routed[j]);
        } else if n <= i {
          assert a.targets[i - n] != a.targets[j - n];
        }
      }
    }
  }

  // ---------- Order ----------

  ghost predicate Ascending(ds: seq<Delivery>) {
    forall i, j :: 0 <= i < j < |ds| ==> ds[i].id < ds[j].id
  }

  /** What one worker has handled, in order. */
  function HandledBy(outcomes: seq<Handled>, w: nat): seq<Delivery> {
    if outcomes == [] then []
    else
      var last := outcomes[|outcomes| - 1];
      HandledBy(outcomes[..|outcomes| - 1], w) + (if last.worker == w then [last.delivery] else [])
  }

  lemma HandledExtends(outcomes: seq<Handled>, x: Handled, w: nat)
    ensures HandledBy(outcomes + [x], w) == HandledBy(outcomes, w) + (if x.worker == w then [x.delivery] else [])
  {
    assert (outcomes + [x])[..|outcomes|] == outcomes;
  }

  function Waiting(s: State): seq<Delivery> {
    Flat(s.hand) + Flat(s.routing.channel)
  }

  function AtWorker(s: State, w: nat): seq<Delivery>
    requires w < |s.workers|
  {
    s.workers[w].current + Flat(s.workers[w].queue)
  }

  /** Past, present and future of one worker, in order. */
  function Line(s: State, w: nat): seq<Delivery>
    requires w < |s.workers|
  {
    HandledBy(s.outcomes, w) + AtWorker(s, w) + Waiting(s)
  }

  ghost predicate LineOk(s: State, w: nat)
    requires w < |s.workers|
  {
    Ascending(Line(s, w)) && forall i :: 0 <= i < |Line(s, w)| ==> Line(s, w)[i].id < |s.routed|
  }

  ghost predicate OrderOk(s: State) {
    && (forall w :: 0 <= w < |s.workers| ==> LineOk(s, w))
    && (forall i :: 0 <= i < |s.outcomes| ==> s.outcomes[i].worker < |s.workers|)
  }

  ghost predicate BelowAll(ds: seq<Delivery>, bound: nat) {
    forall i :: 0 <= i < |ds| ==> ds[i].id < bound
  }

  /** Cutting a stretch out of an ascending line leaves it ascending. */
  lemma CutMiddle(a: seq<Delivery>, b: seq<Delivery>, c: seq<Delivery>, bound: nat)
    requires Ascending(a + b + c) && BelowAll(a + b + c, bound)
    ensures Ascending(a + c) && BelowAll(a + c, bound)
  {
    var whole, part := a + b + c, a + c;
    forall i | 0 <= i < |part| ensures part[i] == whole[if i < |a| then i else i + |b|] {
    }
  }

  lemma AppendBatch(line: seq<Delivery>, batch: Batch, bound: nat)
    requires Ascending(line) && BelowAll(line, bound)
    requires forall i :: 0 <= i < |batch| ==> batch[i].id == bound + i
    ensures Ascending(line + batch) && BelowAll(line + batch, bound + |batch|)
    ensures Ascending(line) && BelowAll(line, bound + |batch|)
  {
  }

  /** The line's parts, once the step's effect on them is known. */
  lemma SameLine(s: State, s': State, w: nat, moved: seq<Delivery>)
    requires w < |s.workers| && w < |s'.workers|
    requires HandledBy(s'.outcomes, w) == HandledBy(s.outcomes, w) + moved
    requires moved + AtWorker(s', w) == AtWorker(s, w)
    requires Waiting(s') == Waiting(s)
    ensures Line(s', w) == Line(s, w)
  {
  }

  lemma RouteKeepsLine(s: State, s': State, topic: string, targets: seq<Target>, w: nat)
    requires RouteStep(s, s', topic, targets) && RoutedOk(s) && w < |s.workers|
    requires Ascending(Line(s, w)) && BelowAll(Line(s, w), |s.routed|)
    ensures Ascending(Line(s', w)) && BelowAll(Line(s', w), |s'.routed|)
  {
    hide Ascending, BelowAll, DistinctTargets, HandledBy;
    var batch := NextBatch(s.routing, topic, targets);
    AppendBatch(Line(s, w), batch, |s.routed|);
    FlatAppend(s.routing.channel, batch);
    if s'.routing.channel != s.routing.channel {
      assert Waiting(s') == Waiting(s) + batch;
      assert Line(s', w) == Line(s, w) + batch;
    } else {
      assert Line(s', w) == Line(s, w);
    }
  }

  lemma PullKeepsLine(s: State, s': State, v: nat, w: nat)
    requires PullStep(s, s', v) && w < |s.workers| == |s'.workers|
    requires Ascending(Line(s, w)) && BelowAll(Line(s, w), |s.routed|)
    ensures Ascending(Line(s', w)) && BelowAll(Line(s', w), |s'.routed|)
  {
    hide Ascending, BelowAll, HandledBy, Line;
    HeadAndTail(s.workers[v].queue);
    SameLine(s, s', w, []);
  }

  /** The delivery offered moves from the worker's batch to its outcomes. */
  lemma OfferKeepsLine(s: State, s': State, v: nat, w: nat)
    requires OfferStep(s, s', v) && w < |s.workers| == |s'.workers|
    requires Ascending(Line(s, w)) && BelowAll(Line(s, w), |s.routed|)
    ensures Ascending(Line(s', w)) && BelowAll(Line(s', w), |s'.routed|)
  {
    hide Ascending, BelowAll, HandledBy, OfferResult, AfterOffer, Line;
    HandledExtends(s.outcomes, s'.outcomes[|s.outcomes|], w);
    var moved := if v == w then [s.workers[v].current[0]] else [];
    assert moved + AtWorker(s', w) == AtWorker(s, w);
    SameLine(s, s', w, moved);
  }

  lemma StepKeepsLine(s: State, s': State, a: Action, w: nat)
    requires Step(s, s', a) && w < |s.workers| == |s'.workers| && RoutedOk(s)
    requires Ascending(Line(s, w)) && BelowAll(Line(s, w), |s.routed|)
    ensures Ascending(Line(s', w)) && BelowAll(Line(s', w), |s'.routed|)
  {
    hide Ascending, BelowAll, HandledBy, RouteStep, GiveStep, PullStep, OfferStep, RoutedOk, Line;
    match a
    case Route(topic, targets) => RouteKeepsLine(s, s', topic, targets, w);
    case Give => GiveKeepsLine(s, s', w);
    case DispatcherStops =>
      StopKeepsLine(s, s', w, AtWorker(s, w), []);
    case WorkerStops(v) =>
      if v == w {
        StopKeepsLine(s, s', w, [], Waiting(s));
      } else {
        SameLine(s, s', w, []);
      }
    case Take =>
      HeadAndTail(s.routing.channel);
      SameLine(s, s', w, []);
    case Pull(v) => PullKeepsLine(s, s', v, w);
    case Offer(v) => OfferKeepsLine(s, s', v, w);
    case _ => SameLine(s, s', w, []);
  }

  /** A stopping task leaves the rest of the line as it was. */
  lemma StopKeepsLine(s: State, s': State, w: nat, here: seq<Delivery>, waiting: seq<Delivery>)
    requires w < |s.workers| && w < |s'.workers| && s'.outcomes == s.outcomes && s'.routed == s.routed
    requires here == AtWorker(s', w) && (here == AtWorker(s, w) || here == [])
    requires waiting == Waiting(s') && (waiting == Waiting(s) || waiting == [])
    requires Ascending(Line(s, w)) && BelowAll(Line(s, w), |s.routed|)
    ensures Ascending(Line(s', w)) && BelowAll(Line(s', w), |s'.routed|)
  {
    hide Ascending, BelowAll, HandledBy, AtWorker, Waiting;
    var past := HandledBy(s.outcomes, w);
    CutMiddle(past, AtWorker(s, w), Waiting(s), |s.routed|);
    assert past + AtWorker(s, w) + Waiting(s) == (past + AtWorker(s, w)) + Waiting(s) + [];
    CutMiddle(past + AtWorker(s, w), Waiting(s), [], |s.routed|);
    assert past + Waiting(s) == past + Waiting(s) + [];
    CutMiddle(past, Waiting(s), [], |s.routed|);
    assert past + [] == past && past + AtWorker(s, w) + [] == past + AtWorker(s, w);
    assert past + [] + Waiting(s) == past + Waiting(s) && past + [] + [] == past;
  }

  /** The hand's batch goes to one worker's queue and is out of the others' way. */
  lemma GiveMovesBatch(s: State, s': State, w: nat)
    requires GiveStep(s, s') && w < |s.workers|
    ensures |s.hand| == 1 && |s'.workers| == |s.workers|
    ensures Waiting(s) == s.hand[0] + Waiting(s')
    ensures AtWorker(s', w) == AtWorker(s, w) + s.hand[0] || AtWorker(s', w) == AtWorker(s, w)
    ensures s'.outcomes == s.outcomes && s'.routed == s.routed
  {
    var batch := s.hand[0];
    assert s.hand == [batch];
    HeadAndTail(s.hand);
    FlatAppend(s.workers[w].queue, batch);
  }

  lemma GiveKeepsLine(s: State, s': State, w: nat)
    requires GiveStep(s, s') && w < |s.workers|
    requires Ascending(Line(s, w)) && BelowAll(Line(s, w), |s.routed|)
    ensures Ascending(Line(s', w)) && BelowAll(Line(s', w), |s'.routed|)
  {
    hide Ascending, BelowAll, HandledBy, GiveStep, Waiting, AtWorker;
    GiveMovesBatch(s, s', w);
    var front, batch := HandledBy(s.outcomes, w) + AtWorker(s, w), s.hand[0];
    assert Line(s, w) == front + batch + Waiting(s');
    if AtWorker(s', w) == AtWorker(s, w) {
      CutMiddle(front, batch, Waiting(s'), |s.routed|);
    } else {
      assert HandledBy(s.outcomes, w) + (AtWorker(s, w) + batch) == front + batch;
    }
  }

  lemma StepKeepsOrder(s: State, s': State, a: Action)
    requires OrderOk(s) && RoutedOk(s) && Step(s, s', a)
    ensures OrderOk(s')
  {
    forall w | 0 <= w < |s'.workers| ensures LineOk(s', w) {
      assert LineOk(s, w);
      StepKeepsLine(s, s', a, w);
    }
  }

  // ---------- Connections ----------

  /** What was sent to one connection, in order. */
  function SentTo(outcomes: seq<Handled>, c: nat): seq<Delivery> {
    if outcomes == [] then []
    else
      var last := outcomes[|outcomes| - 1];
      SentTo(outcomes[..|outcomes| - 1], c)
          + (if last.result == Sent && last.delivery.conn == c then [last.delivery] else [])
  }

  lemma SentExtends(outcomes: seq<Handled>, x: Handled, c: nat)
    ensures SentTo(outcomes + [x], c) == SentTo(outcomes, c)
            + (if x.result == Sent && x.delivery.conn == c then [x.delivery] else [])
  {
    assert (outcomes + [x])[..|outcomes|] == outcomes;
  }

  predicate Unborn(s: State, c: nat) {
    c in s.opening || c >= s.nextConn
  }

  /** A connection's writer receives exactly what was sent to it, in order, before and after
      the connection is removed, and its queue stays within the capacity; ids are never
      used twice. */
  ghost predicate ConnectionOk(s: State, c: nat) {
    && (Known(s, c) ==>
          && !Unborn(s, c)
          && ConnectionAt(s, c).taken + ConnectionAt(s, c).queue == SentTo(s.outcomes, c)
          && |ConnectionAt(s, c).queue| <= ConnectionAt(s, c).capacity == s.sendCapacity)
    && (Unborn(s, c) ==> SentTo(s.outcomes, c) == [])
    && (c in s.opening ==> c < s.nextConn)
    && !(c in s.conns && c in s.gone)
  }

  lemma OfferKeepsConnection(s: State, s': State, w: nat, c: nat)
    requires ConnectionOk(s, c) && OfferStep(s, s', w)
    ensures ConnectionOk(s', c)
  {
    hide SentTo;
    SentExtends(s.outcomes, s'.outcomes[|s.outcomes|], c);
    var d := s.workers[w].current[0];
    if c in s.conns && c == d.conn && OfferResult(s.conns, d) == Sent {
      assert s.conns[c].taken + (s.conns[c].queue + [d]) == s.conns[c].taken + s.conns[c].queue + [d];
    }
  }

  lemma StepKeepsConnection(s: State, s': State, a: Action, c: nat)
    requires ConnectionOk(s, c) && Step(s, s', a)
    ensures ConnectionOk(s', c)
  {
    hide SentTo, RouteStep, GiveStep, PullStep, OfferStep;
    match a
    case Offer(w) => OfferKeepsConnection(s, s', w, c);
    case Route(topic, targets) => RouteOrGiveKeepsConnections(s, s', a);
    case Give => RouteOrGiveKeepsConnections(s, s', a);
    case Pull(w) => RouteOrGiveKeepsConnections(s, s', a);
    case Consume(d) =>
      if d == c {
        var conn := ConnectionAt(s, c);
        assert conn.taken + [conn.queue[0]] + conn.queue[1..] == conn.taken + conn.queue;
      }
    case _ =>
  }

  lemma RouteOrGiveKeepsConnections(s: State, s': State, a: Action)
    requires Step(s, s', a) && (a.Route? || a.Give? || a.Pull?)
    ensures s'.conns == s.conns && s'.gone == s.gone && s'.opening == s.opening && s'.nextConn == s.nextConn
    ensures s'.outcomes == s.outcomes && s'.sendCapacity == s.sendCapacity
  {
  }

  // ---------- Metrics ----------

  function Owes(w: Worker, r: SendResult): nat {
    if w.duty.Counting? && w.duty.result == r then 1 else 0
  }

  function OwedByAll(workers: seq<Worker>, r: SendResult): nat {
    if workers == [] then 0 else Owes(workers[0], r) + OwedByAll(workers[1..], r)
  }

  lemma {:induction false} OwedUpdate(workers: seq<Worker>, w: nat, worker: Worker, r: SendResult)
    requires w < |workers|
    ensures OwedByAll(workers[w := worker], r) + Owes(workers[w], r) == OwedByAll(workers, r) + Owes(worker, r)
  {
    var updated := workers[w := worker];
    if w == 0 {
      assert updated[1..] == workers[1..];
    } else {
      assert updated[1..] == workers[1..][w - 1 := worker];
      OwedUpdate(workers[1..], w - 1, worker, r);
    }
  }

  lemma {:induction false} NothingOwed(workers: seq<Worker>, r: SendResult)
    requires forall w :: 0 <= w < |workers| ==> !workers[w].duty.Counting?
    ensures OwedByAll(workers, r) == 0
  {
    if workers != [] {
      NothingOwed(workers[1..], r);
    }
  }

  /** How many deliveries ended with a result. */
  function Ended(outcomes: seq<Handled>, r: SendResult): nat {
    if outcomes == [] then 0
    else Ended(outcomes[..|outcomes| - 1], r) + (if outcomes[|outcomes| - 1].result == r then 1 else 0)
  }

  lemma EndedExtends(outcomes: seq<Handled>, x: Handled, r: SendResult)
    ensures Ended(outcomes + [x], r) == Ended(outcomes, r) + (if x.result == r then 1 else 0)
  {
    assert (outcomes + [x])[..|outcomes|] == outcomes;
  }

  function Due(s: State, r: SendResult): int {
    Ended(s.outcomes, r) - OwedByAll(s.workers, r)
  }

  /** Each metric counts its class of outcomes, but for those a worker still has to count. */
  predicate MetricsOk(s: State) {
    && s.metrics.dispatched == Due(s, Sent)
    && s.metrics.droppedOverflow == Due(s, DroppedNewest) + Due(s, DroppedOldest)
    && s.metrics.slowDisconnected == Due(s, Disconnected)
    && s.metrics.connectionGone == Due(s, ConnectionGone)
  }

  lemma RoutingSettlesNothing(s: State, s': State, topic: string, targets: seq<Target>)
    requires RouteStep(s, s', topic, targets)
    ensures s'.workers == s.workers && s'.outcomes == s.outcomes
  {
  }

  lemma GivingSettlesNothing(s: State, s': State, r: SendResult)
    requires GiveStep(s, s')
    ensures Due(s', r) == Due(s, r)
  {
    hide OwedByAll, Ended;
    var w := s.next % |s.workers|;
    OwedUpdate(s.workers, w, s'.workers[w], r);
  }

  lemma PullingSettlesNothing(s: State, s': State, w: nat, r: SendResult)
    requires PullStep(s, s', w)
    ensures Due(s', r) == Due(s, r)
  {
    hide OwedByAll, Ended;
    OwedUpdate(s.workers, w, s'.workers[w], r);
  }

  /** The outcome is recorded and owed at once. */
  lemma OfferingSettlesNothing(s: State, s': State, w: nat, r: SendResult)
    requires OfferStep(s, s', w)
    ensures Due(s', r) == Due(s, r)
  {
    hide OfferResult, AfterOffer, OwedByAll, Ended;
    OwedUpdate(s.workers, w, s'.workers[w], r);
    EndedExtends(s.outcomes, s'.outcomes[|s.outcomes|], r);
  }

  lemma StepSettles(s: State, s': State, a: Action, r: SendResult)
    requires Step(s, s', a)
    ensures Due(s', r) == Due(s, r) + (if a.Count? && s.workers[a.worker].duty.result == r then 1 else 0)
  {
    hide RouteStep, GiveStep, PullStep, OfferStep, OwedByAll, Ended, AfterCounting;
    match a
    case Route(topic, targets) => RoutingSettlesNothing(s, s', topic, targets);
    case Give => GivingSettlesNothing(s, s', r);
    case Pull(w) => PullingSettlesNothing(s, s', w, r);
    case Offer(w) => OfferingSettlesNothing(s, s', w, r);
    case Count(w) => OwedUpdate(s.workers, w, s'.workers[w], r);
    case Evict(w) => OwedUpdate(s.workers, w, s'.workers[w], r);
    case WorkerStops(w) => OwedUpdate(s.workers, w, s'.workers[w], r);
    case _ =>
  }

  lemma StepKeepsMetrics(s: State, s': State, a: Action)
    requires MetricsOk(s) && Step(s, s', a)
    ensures MetricsOk(s')
  {
    hide Due, RouteStep, GiveStep, PullStep, OfferStep;
    StepSettles(s, s', a, Sent);
    StepSettles(s, s', a, DroppedNewest);
    StepSettles(s, s', a, DroppedOldest);
    StepSettles(s, s', a, Disconnected);
    StepSettles(s, s', a, ConnectionGone);
    MetricsMove(s, s', a);
  }

  lemma MetricsMove(s: State, s': State, a: Action)
    requires Step(s, s', a)
    ensures s'.metrics == if a.Count? then AfterCounting(s.metrics, s.workers[a.worker].duty.result) else s.metrics
  {
  }

  // ---------- All runs ----------

  ghost predicate Inv(s: State) {
    && Conserved(s)
    && SequencesOk(s)
    && RoutedOk(s)
    && OrderOk(s)
    && MetricsOk(s)
    && forall c :: ConnectionOk(s, c)
  }

  lemma InitHasInv(s: State)
    requires Init(s)
    ensures Inv(s)
  {
    InitConserved(s);
    InitMeasured(s);
    NothingRouted(s);
    NothingNumbered(s);
    InitOrdered(s);
  }

  lemma InitConserved(s: State)
    requires Init(s)
    ensures Conserved(s)
  {
    forall d ensures Places(s, d) == Occurrences(s.routed, d) {
      NothingHeld(s.workers, d);
    }
  }

  lemma InitMeasured(s: State)
    requires Init(s)
    ensures MetricsOk(s)
  {
    hide OwedByAll;
    NothingOwed(s.workers, Sent);
    NothingOwed(s.workers, DroppedNewest);
    NothingOwed(s.workers, DroppedOldest);
    NothingOwed(s.workers, Disconnected);
    NothingOwed(s.workers, ConnectionGone);
  }

  lemma NothingRouted(s: State)
    requires s.routing.counters == NO_ROUTES && s.routed == []
    ensures RoutedOk(s)
  {
  }

  lemma NothingNumbered(s: State)
    requires s.routing.counters == NO_ROUTES && s.routing.sequences == map[] && s.events == []
    ensures SequencesOk(s)
  {
    hide NumberedOk;
    forall t ensures NumberedOk(s, t) {
      NoNumbers(s, t);
    }
  }

  lemma NoNumbers(s: State, topic: string)
    requires s.routing.sequences == map[] && s.events == []
    ensures NumberedOk(s, topic)
  {
  }

  lemma InitOrdered(s: State)
    requires Init(s)
    ensures OrderOk(s) && forall c :: ConnectionOk(s, c)
  {
    forall w | 0 <= w < |s.workers| ensures LineOk(s, w) {
      assert Line(s, w) == [];
    }
  }

  lemma StepKeepsInv(s: State, s': State, a: Action)
    requires Inv(s) && Step(s, s', a)
    ensures Inv(s')
  {
    hide Step, Places, Occurrences, SequencesOk, RoutedOk, OrderOk, MetricsOk, ConnectionOk;
    forall d ensures Places(s', d) == Occurrences(s'.routed, d) {
      StepConserves(s, s', a, d);
    }
    StepKeepsSequences(s, s', a);
    StepKeepsRouted(s, s', a);
    StepKeepsOrder(s, s', a);
    StepKeepsMetrics(s, s', a);
    forall c ensures ConnectionOk(s', c) {
      StepKeepsConnection(s, s', a, c);
    }
  }

  lemma {:induction false} RunKeepsInv(run: seq<State>, n: nat)
    requires IsRun(run) && n < |run|
    ensures Inv(run[n])
  {
    if n == 0 {
      InitHasInv(run[0]);
    } else {
      RunKeepsInv(run, n - 1);
      assert Next(run[n - 1], run[n - 1 + 1]);
      var a :| Step(run[n - 1], run[n], a);
      StepKeepsInv(run[n - 1], run[n], a);
    }
  }

  /** In every interleaving, every routed pair is in exactly one place, once, and
      nothing else is anywhere. */
  lemma EveryPairIsInOnePlace(run: seq<State>, n: nat)
    requires IsRun(run) && n < |run|
    ensures forall d :: Places(run[n], d) == if d in run[n].routed then 1 else 0
  {
    RunKeepsInv(run, n);
    forall d ensures Places(run[n], d) == if d in run[n].routed then 1 else 0 {
      OnceEach(run[n].routed, d);
    }
  }

  lemma {:induction false} OnceEach(ds: seq<Delivery>, d: Delivery)
    requires forall i, j :: 0 <= i < j < |ds| ==> ds[i].id != ds[j].id
    ensures Occurrences(ds, d) == if d in ds then 1 else 0
  {
    if ds != [] {
      assert ds == [ds[0]] + ds[1..];
      OnceEach(ds[1..], d);
      if ds[0] == d {
        assert d !in ds[1..];
      }
    }
  }

  /** In every interleaving the numbers given to a topic are 1, 2, 3, … without a gap,
      and every routed event was empty, sent or refused. */
  lemma SequencesHaveNoGap(run: seq<State>, n: nat, topic: string)
    requires IsRun(run) && n < |run|
    ensures forall i :: 0 <= i < |NumbersOf(run[n].events, topic)| ==> NumbersOf(run[n].events, topic)[i] == i + 1
    ensures var c := run[n].routing.counters;
            c.eventsRouted == |run[n].events| == c.emptyRoutes + c.batchesSent + c.dispatchFailures
  {
    RunKeepsInv(run, n);
    assert NumberedOk(run[n], topic);
  }

  /** The pairs of one event: its targets in order, with its topic and number. */
  ghost predicate PairsOf(batch: Batch, topic: string, sequence: nat, targets: seq<Target>) {
    |batch| == |targets| &&
    forall i :: 0 <= i < |targets| ==>
                  && batch[i].conn == targets[i].0 && batch[i].sub == targets[i].1
                  && batch[i].topic == topic && batch[i].sequence == sequence
  }

  /** In every interleaving routing an event adds one pair per target, numbered one above
      the events its topic has had; they go out as one message, or all of them are refused. */
  lemma RoutingAddsTheTargets(run: seq<State>, n: nat, topic: string, targets: seq<Target>)
    requires IsRun(run) && n + 1 < |run| && RouteStep(run[n], run[n + 1], topic, targets)
    ensures var s, s' := run[n], run[n + 1];
            && |s.routed| <= |s'.routed| && s'.routed[..|s.routed|] == s.routed
            && var batch := s'.routed[|s.routed|..];
            && PairsOf(batch, topic, |NumbersOf(s.events, topic)| + 1, targets)
            && (if batch != [] && s.routing.connected && |s.routing.channel| < 65536
                then s'.routing.channel == s.routing.channel + [batch] && s'.failed == s.failed
                else s'.routing.channel == s.routing.channel && s'.failed == s.failed + batch)
  {
    hide NumbersOf, Inv;
    RunKeepsInv(run, n);
    InvNumbers(run[n], topic);
    var s, s' := run[n], run[n + 1];
    assert s'.routed[|s.routed|..] == NextBatch(s.routing, topic, targets);
  }

  lemma InvNumbers(s: State, topic: string)
    requires Inv(s)
    ensures |NumbersOf(s.events, topic)| == SequenceAt(s.routing.sequences, topic)
  {
    assert NumberedOk(s, topic);
  }

  /** In every interleaving the metrics count exactly their class of outcomes, as soon as
      no worker has an outcome left to count. */
  lemma MetricsCountTheirClass(run: seq<State>, n: nat)
    requires IsRun(run) && n < |run|
    requires forall w :: 0 <= w < |run[n].workers| ==> !run[n].workers[w].duty.Counting?
    ensures var m, ends := run[n].metrics, run[n].outcomes;
            && m.dispatched == Ended(ends, Sent)
            && m.droppedOverflow == Ended(ends, DroppedNewest) + Ended(ends, DroppedOldest)
            && m.slowDisconnected == Ended(ends, Disconnected)
            && m.connectionGone == Ended(ends, ConnectionGone)
  {
    RunKeepsInv(run, n);
    forall r ensures Due(run[n], r) == Ended(run[n].outcomes, r) {
      NothingOwed(run[n].workers, r);
    }
  }

  /** What one worker sent to one connection, in order. */
  function SentBy(outcomes: seq<Handled>, w: nat, c: nat): seq<Delivery> {
    if outcomes == [] then []
    else
      var last := outcomes[|outcomes| - 1];
      SentBy(outcomes[..|outcomes| - 1], w, c)
      + (if last.worker == w && last.result == Sent && last.delivery.conn == c then [last.delivery] else [])
  }

  lemma {:induction false} SentByIsAscending(outcomes: seq<Handled>, w: nat, c: nat)
    requires Ascending(HandledBy(outcomes, w))
    ensures Ascending(SentBy(outcomes, w, c))
    ensures forall d :: d in SentBy(outcomes, w, c) ==>
              d in HandledBy(outcomes, w) && d in Deliveries(outcomes) && d.conn == c
  {
    if outcomes != [] {
      var rest := outcomes[..|outcomes| - 1];
      var last := outcomes[|outcomes| - 1];
      var before, all := HandledBy(rest, w), HandledBy(outcomes, w);
      assert forall i :: 0 <= i < |before| ==> before[i] == all[i];
      SentByIsAscending(rest, w, c);
      assert Deliveries(outcomes) == Deliveries(rest) + [last.delivery];
      if last.worker == w {
        forall i | 0 <= i < |before| ensures before[i].id < last.delivery.id {
          assert all[i].id < all[|before|].id;
        }
      }
    }
  }

  /** In every interleaving, what one worker enqueues to a connection is in routing order. */
  lemma WorkersKeepRoutingOrder(run: seq<State>, n: nat, w: nat, c: nat)
    requires IsRun(run) && n < |run| && w < |run[n].workers|
    ensures Ascending(SentBy(run[n].outcomes, w, c))
    ensures forall d :: d in SentBy(run[n].outcomes, w, c) ==>
              d.id < |run[n].routed| && run[n].routed[d.id] == d && d.conn == c
  {
    RunKeepsInv(run, n);
    PastIsAscending(run[n], w);
    SentByIsAscending(run[n].outcomes, w, c);
    forall d | d in SentBy(run[n].outcomes, w, c) ensures d.id < |run[n].routed| && run[n].routed[d.id] == d {
      OutcomesWereRouted(run[n], d);
    }
  }

  lemma PastIsAscending(s: State, w: nat)
    requires OrderOk(s) && w < |s.workers|
    ensures Ascending(HandledBy(s.outcomes, w))
  {
    hide HandledBy;
    var past := HandledBy(s.outcomes, w);
    assert LineOk(s, w);
    assert forall i :: 0 <= i < |past| ==> past[i] == Line(s, w)[i];
  }

  lemma OutcomesWereRouted(s: State, d: Delivery)
    requires Conserved(s) && RoutedOk(s) && d in Deliveries(s.outcomes)
    ensures d.id < |s.routed| && s.routed[d.id] == d
  {
    assert Places(s, d) == Occurrences(s.routed, d);
    assert d in multiset(Deliveries(s.outcomes));
    assert d in multiset(s.routed);
  }

  lemma {:induction false} OneWorkerSendsAll(outcomes: seq<Handled>, c: nat)
    requires forall i :: 0 <= i < |outcomes| ==> outcomes[i].worker == 0
    ensures SentBy(outcomes, 0, c) == SentTo(outcomes, c)
  {
    if outcomes != [] {
      OneWorkerSendsAll(outcomes[..|outcomes| - 1], c);
    }
  }

  /** In every interleaving a connection's writer has taken, or will find queued, exactly
      what was sent to the connection, in order, removed or not. */
  lemma WriterReceivesWhatWasSent(run: seq<State>, n: nat, c: nat)
    requires IsRun(run) && n < |run| && Known(run[n], c)
    ensures ConnectionAt(run[n], c).taken + ConnectionAt(run[n], c).queue == SentTo(run[n].outcomes, c)
  {
    RunKeepsInv(run, n);
    assert ConnectionOk(run[n], c);
  }

  /** Sequence numbers increase strictly within each subscription's topic. */
  ghost predicate StreamAscends(stream: seq<Delivery>) {
    forall i, j :: 0 <= i < j < |stream| && stream[i].sub == stream[j].sub && stream[i].topic == stream[j].topic
                   ==> stream[i].sequence < stream[j].sequence
  }

  /** With one worker, each connection is sent each topic of a subscription in strictly
      increasing sequence order, in every interleaving. */
  lemma OneWorkerKeepsStreamOrder(run: seq<State>, n: nat, c: nat)
    requires IsRun(run) && n < |run| && |run[n].workers| == 1
    ensures StreamAscends(SentTo(run[n].outcomes, c))
  {
    RunKeepsInv(run, n);
    var s := run[n];
    OneWorkerSendsAll(s.outcomes, c);
    var stream := SentBy(s.outcomes, 0, c);
    WorkersKeepRoutingOrder(run, n, 0, c);
    forall i, j | 0 <= i < j < |stream| && stream[i].sub == stream[j].sub && stream[i].topic == stream[j].topic
      ensures stream[i].sequence < stream[j].sequence
    {
      assert stream[i] in stream && stream[j] in stream;
      assert Follows(s.routed[stream[i].id], s.routed[stream[j].id]);
    }
  }

  predicate Drained(s: State) {
    && s.hand == [] && s.routing.channel == []
    && forall w :: 0 <= w < |s.workers| ==>
         s.workers[w].queue == [] && s.workers[w].current == [] && !s.workers[w].duty.Counting?
  }

  lemma {:induction false} EndsPartition(outcomes: seq<Handled>)
    ensures Ended(outcomes, Sent) + Ended(outcomes, DroppedNewest) + Ended(outcomes, DroppedOldest)
            + Ended(outcomes, Disconnected) + Ended(outcomes, ConnectionGone) == |outcomes|
  {
    if outcomes != [] {
      EndsPartition(outcomes[..|outcomes| - 1]);
    }
  }

  /** Once the pipeline has drained, the router's count of matches is accounted for by
      the four delivery metrics, the refused batches and what died with a task. */
  lemma DrainedCountsAddUp(run: seq<State>, n: nat)
    requires IsRun(run) && n < |run| && Drained(run[n])
    ensures var m := run[n].metrics;
            run[n].routing.counters.matchesDispatched
            == m.dispatched + m.droppedOverflow + m.slowDisconnected + m.connectionGone
               + |run[n].failed| + |run[n].lost|
  {
    var s := run[n];
    RunKeepsInv(run, n);
    MetricsCountTheirClass(run, n);
    EndsPartition(s.outcomes);
    forall d ensures Occurrences(s.routed, d) == Occurrences(s.failed, d) + Occurrences(s.lost, d)
        + Occurrences(Deliveries(s.outcomes), d) {
      NothingHeld(s.workers, d);
      assert Places(s, d) == Occurrences(s.routed, d);
    }
    SameSizes(s.routed, s.failed, s.lost, Deliveries(s.outcomes));
  }

  lemma SameSizes(all: seq<Delivery>, a: seq<Delivery>, b: seq<Delivery>, c: seq<Delivery>)
    requires forall d :: Occurrences(all, d) == Occurrences(a, d) + Occurrences(b, d) + Occurrences(c, d)
    ensures |all| == |a| + |b| + |c|
  {
    forall d ensures multiset(all)[d] == (multiset(a) + multiset(b) + multiset(c))[d] {
      assert Occurrences(all, d) == Occurrences(a, d) + Occurrences(b, d) + Occurrences(c, d);
    }
    assert multiset(all) == multiset(a) + multiset(b) + multiset(c);
    assert |multiset(all)| == |all|;
  }

  /** A delivery to one connection, whatever its outcome, changes no other connection,
      and while its queue is full it changes nothing on that one either. */
  lemma FullQueueIsIsolated(s: State, s': State, w: nat, c: nat)
    requires OfferStep(s, s', w) && c in s.conns
    requires c != s.workers[w].current[0].conn || |s.conns[c].queue| >= s.conns[c].capacity
    ensures c in s'.conns && s'.conns[c] == s.conns[c] && s'.gone == s.gone
  {
  }

  /** Uninterrupted, the steps of one delivery do what `HandleDispatch` does. */
  lemma StepsComposeToHandleDispatch(s0: State, s1: State, s2: State, s3: State, w: nat)
    requires Step(s0, s1, Offer(w)) && Step(s1, s2, Count(w))
    requires if s2.workers[w].duty.Evicting? then Step(s2, s3, Evict(w)) else s3 == s2
    ensures var d := s0.workers[w].current[0];
            && s3.conns == AfterOffer(s0.conns, d)
            && s3.metrics == AfterCounting(s0.metrics, OfferResult(s0.conns, d))
            && s3.workers[w] == s0.workers[w].(current := s0.workers[w].current[1..])
  {
  }

  // ---------- More than one worker ----------

  ghost predicate Reachable(s: State) {
    exists run: seq<State> :: IsRun(run) && run[|run| - 1] == s
  }

  lemma InitReachable(s: State)
    requires Init(s)
    ensures Reachable(s)
  {
    assert IsRun([s]);
    assert [s][|[s]| - 1] == s;
  }

  lemma StepReachable(s: State, s': State, a: Action)
    requires Reachable(s) && Step(s, s', a)
    ensures Reachable(s')
  {
    hide Step;
    var run: seq<State> :| IsRun(run) && run[|run| - 1] == s;
    var longer := run + [s'];
    forall n | 0 <= n < |longer| - 1 ensures Next(longer[n], longer[n + 1]) {
      if n < |run| - 1 {
        assert Next(run[n], run[n + 1]);
      } else {
        assert longer[n] == s && longer[n + 1] == s';
      }
    }
    assert IsRun(longer) && longer[|longer| - 1] == s';
  }

  const FIRST := Delivery(0, "orders", 1, 1, "s")
  const SECOND := Delivery(1, "orders", 2, 1, "s")
  const IDLE := Worker([], [], Free, true)

  function IdleWorkers(n: nat): seq<Worker> {
    seq(n, _ => IDLE)
  }

  /** `n` workers, one open connection, nothing routed yet. */
  function Opened(n: nat): State {
    State(Routing(map[], NO_ROUTES, [], true), [], 0, IdleWorkers(n),
          map[1 := Connection(DropNewest, 8, [], [], false)], map[], 2, {}, 8, Counts(0, 0, 0, 0), [], [], [], [], [])
  }

  /** The state after one more event for that connection. */
  function OneMoreRouted(s: State): State {
    var batch := NextBatch(s.routing, "orders", [(1, "s")]);
    s.(routing := AfterRoute(s.routing, "orders", [(1, "s")]),
       events := s.events + [("orders", SequenceAt(s.routing.sequences, "orders") + 1)],
       routed := s.routed + batch,
       failed := if ChannelAccepts(s.routing) then s.failed else s.failed + batch)
  }

  function BothRouted(n: nat): State {
    OneMoreRouted(OneMoreRouted(Opened(n)))
  }

  /** The same with one batch at each of the first two workers. */
  function OneBatchEach(n: nat): State
    requires n >= 2
  {
    BothRouted(n).(
      routing := BothRouted(n).routing.(channel := []),
      next := 2,
      workers := IdleWorkers(n)[0 := Worker([[FIRST]], [], Free, true)][1 := Worker([[SECOND]], [], Free, true)])
  }

  lemma OpenedReachable(n: nat)
    requires n >= 1
    ensures Reachable(Opened(n))
  {
    hide Reachable;
    var s0 := Opened(n).(conns := map[], nextConn := 1);
    var s1 := s0.(nextConn := 2, opening := {1});
    assert s0.workers != [];
    InitReachable(s0);
    StepReachable(s0, s1, AllocateId);
    assert s1.opening - {1} == {};
    StepReachable(s1, Opened(n), Register(1, DropNewest));
  }

  lemma OneMoreReachable(s: State)
    requires Reachable(s)
    ensures Reachable(OneMoreRouted(s))
  {
    hide Reachable, NextBatch, AfterRoute;
    StepReachable(s, OneMoreRouted(s), Route("orders", [(1, "s")]));
  }

  lemma BatchesRouted(n: nat)
    ensures BothRouted(n) ==
            Opened(n).(routing := BothRouted(n).routing, events := BothRouted(n).events, routed := BothRouted(n).routed)
    ensures BothRouted(n).routing.channel == [[FIRST], [SECOND]] && BothRouted(n).routing.connected
  {
    hide IdleWorkers;
    var s1 := OneMoreRouted(Opened(n));
    assert NextBatch(Opened(n).routing, "orders", [(1, "s")]) == [FIRST];
    assert s1.routing.channel == [[FIRST]];
    assert NextBatch(s1.routing, "orders", [(1, "s")]) == [SECOND];
  }

  lemma SmallIndex(next: nat, count: nat)
    requires next < count
    ensures next % count == next
  {
  }

  lemma TakeNext(s: State) returns (t: State)
    requires Reachable(s) && s.routing.connected && s.routing.channel != [] && s.hand == []
    ensures Reachable(t)
    ensures t == s.(hand := [s.routing.channel[0]], routing := s.routing.(channel := s.routing.channel[1..]))
  {
    hide Reachable;
    t := s.(hand := [s.routing.channel[0]], routing := s.routing.(channel := s.routing.channel[1..]));
    StepReachable(s, t, Take);
  }

  lemma GiveToIdle(s: State) returns (t: State)
    requires Reachable(s) && |s.hand| == 1 && s.next < |s.workers| && s.workers[s.next] == IDLE
    ensures Reachable(t)
    ensures t == s.(hand := [], next := (s.next + 1) % USIZE_RANGE,
                    workers := s.workers[s.next := Worker(s.hand, [], Free, true)])
  {
    hide Reachable;
    t := s.(hand := [], next := (s.next + 1) % USIZE_RANGE,
            workers := s.workers[s.next := Worker(s.hand, [], Free, true)]);
    assert [] + s.hand == s.hand;
    SmallIndex(s.next, |s.workers|);
    StepReachable(s, t, Give);
  }

  lemma OneBatchEachReachable(n: nat)
    requires n >= 2
    ensures Reachable(OneBatchEach(n))
  {
    hide Reachable, OneMoreRouted;
    OpenedReachable(n);
    OneMoreReachable(Opened(n));
    OneMoreReachable(OneMoreRouted(Opened(n)));
    BatchesRouted(n);
    var s1 := TakeNext(BothRouted(n));
    var s2 := GiveToIdle(s1);
    assert s2.routing.channel == [[SECOND]];
    var s3 := TakeNext(s2);
    assert s3.routing.channel == [] && s3.hand == [[SECOND]];
    var s4 := GiveToIdle(s3);
    assert s4 == OneBatchEach(n);
  }

  lemma BatchesAssigned(n: nat)
    requires n >= 2
    ensures |OneBatchEach(n).workers| == n
    ensures OneBatchEach(n).workers[0] == Worker([[FIRST]], [], Free, true)
    ensures OneBatchEach(n).workers[1] == Worker([[SECOND]], [], Free, true)
    ensures OneBatchEach(n).conns == map[1 := Connection(DropNewest, 8, [], [], false)]
  {
    hide OneMoreRouted;
    BatchesRouted(n);
  }

  /** With any number of workers above one the second can run ahead, and a connection's
      queue then holds number 2 of a topic before number 1. */
  lemma ManyWorkersCanReorder(n: nat)
    requires n >= 2
    ensures exists s :: Reachable(s) && |s.workers| == n && 1 in s.conns && s.conns[1].queue == [SECOND, FIRST]
                        && s.conns[1].taken == []
  {
    hide Reachable, OneBatchEach;
    OneBatchEachReachable(n);
    BatchesAssigned(n);
    var s0 := OneBatchEach(n);
    var s1 := Ahead(s0, 1, []);
    var s2 := Ahead(s1, 0, [SECOND]);
    assert s2.conns[1].queue == [SECOND, FIRST];
  }

  /** Worker `w` takes its batch and offers its only delivery. */
  lemma Ahead(s: State, w: nat, queued: seq<Delivery>) returns (s2: State)
    requires Reachable(s) && Working(s, w) && s.workers[w].duty == Free && s.workers[w].current == []
    requires |s.workers[w].queue| == 1 && |s.workers[w].queue[0]| == 1 && s.workers[w].queue[0][0].conn == 1
    requires 1 in s.conns && s.conns[1] == Connection(DropNewest, 8, queued, [], false) && |queued| < 8
    ensures Reachable(s2) && |s2.workers| == |s.workers|
    ensures forall v :: 0 <= v < |s.workers| && v != w ==> s2.workers[v] == s.workers[v]
    ensures 1 in s2.conns && s2.conns[1] == Connection(DropNewest, 8, queued + [s.workers[w].queue[0][0]], [], false)
  {
    hide Reachable;
    var worker, d := s.workers[w], s.workers[w].queue[0][0];
    var s1 := s.(workers := s.workers[w := worker.(current := worker.queue[0], queue := worker.queue[1..])]);
    StepReachable(s, s1, Pull(w));
    var busy := s1.workers[w];
    s2 := s1.(conns := AfterOffer(s1.conns, d),
              workers := s1.workers[w := busy.(current := busy.current[1..], duty := Counting(Sent, d.conn))],
              outcomes := s1.outcomes + [Handled(w, d, Sent)]);
    StepReachable(s1, s2, Offer(w));
  }

  /** Every connection's stream ascends in this state. */
  ghost predicate StreamsAscend(s: State) {
    forall c :: StreamAscends(SentTo(s.outcomes, c))
  }

  /** Stream order, exactly: with `n` workers every reachable state keeps every stream in
      sequence order if and only if there is one worker. */
  lemma StreamOrderNeedsOneWorker(n: nat)
    requires n >= 1
    ensures (forall s :: Reachable(s) && |s.workers| == n ==> StreamsAscend(s)) <==> n == 1
  {
    if n == 1 {
      forall s | Reachable(s) && |s.workers| == n ensures StreamsAscend(s) {
        var run: seq<State> :| IsRun(run) && run[|run| - 1] == s;
        forall c ensures StreamAscends(SentTo(s.outcomes, c)) {
          OneWorkerKeepsStreamOrder(run, |run| - 1, c);
        }
      }
    } else {
      ManyWorkersCanReorder(n);
      var s :| Reachable(s) && |s.workers| == n && 1 in s.conns && s.conns[1].queue == [SECOND, FIRST]
          && s.conns[1].taken == [];
      var run: seq<State> :| IsRun(run) && run[|run| - 1] == s;
      WriterReceivesWhatWasSent(run, |run| - 1, 1);
      assert SentTo(s.outcomes, 1) == [SECOND, FIRST];
      assert !(SentTo(s.outcomes, 1)[0].sequence < SentTo(s.outcomes, 1)[1].sequence);
    }
  }
}
