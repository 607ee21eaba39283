/** Room in the pipeline's queues, and what stays ended once a task or a connection has
    (`crates/realtime-gateway/src/fanout.rs`, `crates/realtime-gateway/src/connection/`). */
module PipelineEndings {
  import opened Connections
  import opened Routers
  import opened Pipeline

  // ---------- Room ----------

  /** The dispatcher passes a batch on as soon as the worker whose turn it is has room for
      it or has died, and never to another. */
  lemma GiveWaitsForRoom(s: State)
    ensures (exists s' :: Step(s, s', Give)) <==>
            && s.workers != [] && |s.hand| == 1
            && var w := s.next % |s.workers|;
               s.workers[w].alive ==> |s.workers[w].queue| < 8192
  {
    if s.workers != [] && |s.hand| == 1 {
      var w := s.next % |s.workers|;
      var moved := s.(hand := [], next := (s.next + 1) % USIZE_RANGE);
      var given := moved.(workers := s.workers[w := s.workers[w].(queue := s.workers[w].queue + s.hand)]);
      var dropped := moved.(lost := s.lost + s.hand[0]);
      if s.workers[w].alive && |s.workers[w].queue| < 8192 {
        assert Step(s, given, Give);
      } else if !s.workers[w].alive {
        assert Step(s, dropped, Give);
      }
    }
  }

  /** The turn goes round by one, on a counter of 64 bits. */
  lemma GiveTakesTurns(s: State, s': State)
    requires Step(s, s', Give)
    ensures s'.next == (s.next + 1) % 0x1_0000_0000_0000_0000 && s'.hand == [] && |s'.workers| == |s.workers|
    ensures forall w :: 0 <= w < |s.workers| ==>
              s'.workers[w].queue == if w == s.next % |s.workers| && s.workers[w].alive
                                     then s.workers[w].queue + s.hand else s.workers[w].queue
  {
  }

  ghost predicate Bounded(s: State) {
    |s.routing.channel| <= 65536 && forall w :: 0 <= w < |s.workers| ==> |s.workers[w].queue| <= 8192
  }

  lemma StepStaysBounded(s: State, s': State, a: Action)
    requires Bounded(s) && Step(s, s', a)
    ensures Bounded(s')
  {
    hide OfferResult, AfterOffer, NextBatch, AfterCounters, AfterCounting;
  }

  /** In every interleaving the dispatch channel and every worker's queue stay within their
      capacities. */
  lemma {:induction false} QueuesAreBounded(run: seq<State>, n: nat)
    requires IsRun(run) && n < |run|
    ensures |run[n].routing.channel| <= 65536
    ensures forall w :: 0 <= w < |run[n].workers| ==> |run[n].workers[w].queue| <= 8192
  {
    hide Step, Init;
    if n == 0 {
      EmptyAtFirst(run[0]);
    } else {
      QueuesAreBounded(run, n - 1);
      assert Next(run[n - 1], run[n - 1 + 1]);
      var a :| Step(run[n - 1], run[n], a);
      StepStaysBounded(run[n - 1], run[n], a);
    }
  }

  lemma EmptyAtFirst(s: State)
    requires Init(s)
    ensures Bounded(s)
  {
  }

  // ---------- Endings ----------

  /** What can end: the dispatcher, a worker, a connection's writer, its registration. */
  datatype Part = Dispatcher | WorkerOf(w: nat) | Receiver(c: nat) | Sender(c: nat)

  ghost predicate HasEnded(s: State, p: Part) {
    match p
    case Dispatcher => !s.routing.connected
    case WorkerOf(w) => w < |s.workers| && !s.workers[w].alive
    case Receiver(c) => Known(s, c) && ConnectionAt(s, c).closed
    case Sender(c) => c in s.gone
  }

  /** The step that ends it. */
  predicate Ends(a: Action, p: Part) {
    match p
    case Dispatcher => a == DispatcherStops
    case WorkerOf(w) => a == WorkerStops(w)
    case Receiver(c) => a == HangUp(c)
    case Sender(c) => a == Remove(c)
  }

  lemma EndTakesEffect(s: State, s': State, a: Action, p: Part)
    requires Step(s, s', a) && Ends(a, p) && (p.Sender? ==> p.c in s.conns)
    ensures HasEnded(s', p)
  {
  }

  lemma StepKeepsEnded(s: State, s': State, a: Action, p: Part)
    requires Inv(s) && Step(s, s', a) && HasEnded(s, p)
    ensures HasEnded(s', p)
  {
    hide Conserved, SequencesOk, RoutedOk, OrderOk, MetricsOk, OfferResult, NextBatch, AfterCounters, AfterCounting,
         SentTo;
    if p.Receiver? || p.Sender? {
      assert ConnectionOk(s, p.c);
      OfferKeepsClosed(s, s', a, p.c);
    }
  }

  lemma OfferKeepsClosed(s: State, s': State, a: Action, c: nat)
    requires Step(s, s', a) && ConnectionOk(s, c)
    ensures Known(s, c) && ConnectionAt(s, c).closed ==> Known(s', c) && ConnectionAt(s', c).closed
    ensures c in s.gone ==> c in s'.gone && c !in s'.conns
  {
    hide SentTo, NextBatch, AfterCounters, AfterCounting;
  }

  lemma {:induction false} EndedForGood(run: seq<State>, m: nat, n: nat, p: Part)
    requires IsRun(run) && m <= n < |run| && HasEnded(run[m], p)
    ensures HasEnded(run[n], p)
  {
    hide Step, Init, Inv, HasEnded;
    if m < n {
      EndedForGood(run, m, n - 1, p);
      RunKeepsInv(run, n - 1);
      assert Next(run[n - 1], run[n - 1 + 1]);
      var a :| Step(run[n - 1], run[n], a);
      StepKeepsEnded(run[n - 1], run[n], a, p);
    }
  }

  /** What can no longer happen in a step: a stopped dispatcher takes and accepts nothing, a
      stopped worker does nothing, and nothing is taken by a writer that hung up; whatever
      is offered to a connection whose writer or registration is gone finds it gone. */
  ghost predicate Over(s: State, s': State, b: Action, p: Part) {
    match p
    case Dispatcher => b != Take && (b.Route? ==> s'.routing.channel == s.routing.channel)
    case WorkerOf(w) => b != Pull(w) && b != Offer(w) && b != Count(w) && b != Evict(w) && b != WorkerStops(w)
    case Receiver(c) => b != Consume(c) && FindsGone(s, s', b, c)
    case Sender(c) => FindsGone(s, s', b, c)
  }

  ghost predicate FindsGone(s: State, s': State, b: Action, c: nat) {
    b.Offer? && b.worker < |s.workers| && s.workers[b.worker].current != [] && s.workers[b.worker].current[0].conn == c
    ==> s'.outcomes != [] && s'.outcomes[|s'.outcomes| - 1].result == ConnectionGone && s'.conns == s.conns
  }

  lemma EndedIsOver(s: State, s': State, b: Action, p: Part)
    requires Inv(s) && Step(s, s', b) && HasEnded(s, p)
    ensures Over(s, s', b, p)
  {
    hide Conserved, SequencesOk, RoutedOk, OrderOk, MetricsOk, NextBatch, AfterCounters, AfterCounting, SentTo;
    if p.Receiver? || p.Sender? {
      assert ConnectionOk(s, p.c);
    }
  }

  /** In every interleaving, what has ended stays ended: from the step on that stops the
      dispatcher or a worker, hangs up or removes a connection, no later step is one of its. */
  lemma WhatEndsStaysEnded(run: seq<State>, m: nat, n: nat, a: Action, b: Action, p: Part)
    requires IsRun(run) && m < n && n + 1 < |run|
    requires Step(run[m], run[m + 1], a) && Ends(a, p) && (p.Sender? ==> p.c in run[m].conns)
    requires Step(run[n], run[n + 1], b)
    ensures HasEnded(run[n], p) && Over(run[n], run[n + 1], b, p)
  {
    hide Step, Inv, HasEnded, Over;
    EndTakesEffect(run[m], run[m + 1], a, p);
    EndedForGood(run, m + 1, n, p);
    RunKeepsInv(run, n);
    EndedIsOver(run[n], run[n + 1], b, p);
  }

  /** A registration opens an empty queue of the configured capacity under the policy asked
      for, on an id handed out and not used before. */
  lemma RegistrationOpensAQueue(s: State, s': State, c: nat, policy: OverflowPolicy)
    requires Inv(s) && Step(s, s', Register(c, policy))
    ensures !Known(s, c) && s'.conns == s.conns[c := Connection(policy, s.sendCapacity, [], [], false)]
    ensures s'.gone == s.gone && c !in s'.opening
  {
    hide Conserved, SequencesOk, RoutedOk, OrderOk, MetricsOk;
    assert ConnectionOk(s, c);
  }
}
