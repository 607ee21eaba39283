/** Telemetry counters and the evaluation circuit breaker
    (`crates/realtime-engine/src/filter_index/stats.rs`). */
module CircuitBreakers {

  const U32_RANGE: nat := 0x1_0000_0000

  /** Thresholds fixed at construction; the trip count is a 32-bit number. */
  datatype Config = Config(thresholdUs: nat, tripCount: nat, cooldownMs: nat)

  datatype BreakerState = BreakerState(
    consecutiveSlow: nat,
    open: bool,
    halfOpenProbe: bool,
    openedAtMs: nat)

  const CLOSED := BreakerState(0, false, false, 0)

  predicate CooledDown(cfg: Config, s: BreakerState, nowMs: nat) {
    (if nowMs >= s.openedAtMs then nowMs - s.openedAtMs else 0) >= cfg.cooldownMs
  }

  predicate Degrades(cfg: Config, s: BreakerState, nowMs: nat) {
    s.open && !(CooledDown(cfg, s, nowMs) && !s.halfOpenProbe)
  }

  function AfterCheck(cfg: Config, s: BreakerState, nowMs: nat): BreakerState {
    if s.open && !Degrades(cfg, s, nowMs) then s.(halfOpenProbe := true) else s
  }

  predicate Slow(cfg: Config, us: nat) {
    us > cfg.thresholdUs
  }

  predicate Trips(cfg: Config, s: BreakerState, us: nat) {
    Slow(cfg, us) && !s.open && s.consecutiveSlow + 1 >= cfg.tripCount
  }

  function AfterReport(cfg: Config, s: BreakerState, us: nat, nowMs: nat): BreakerState {
    if Slow(cfg, us) then
      BreakerState(
        (s.consecutiveSlow + 1) % U32_RANGE,
        s.open || Trips(cfg, s, us),
        false,
        if Trips(cfg, s, us) || s.halfOpenProbe then nowMs else s.openedAtMs)
    else
      BreakerState(0, s.open && !s.halfOpenProbe, false, s.openedAtMs)
  }

  /** The counters an evaluation moves. */
  datatype EvaluationCounts = EvaluationCounts(
    total: nat,
    empty: nat,
    matches: nat,
    lastUs: nat,
    peakUs: nat,
    slow: nat,
    trips: nat,
    bypassed: nat)

  const NO_EVALUATIONS := EvaluationCounts(0, 0, 0, 0, 0, 0, 0, 0)

  class FilterIndexStats {
    var slotsAllocated: nat
    var slotsFreed: nat
    var subscriptionsRejected: nat
    var compositeKeyCount: nat
    var evaluationsTotal: nat
    var evaluationsEmpty: nat
    var matchesTotal: nat
    var lastEvalUs: nat
    var peakEvalUs: nat
    var slowEvaluations: nat
    var circuitTrips: nat
    var circuitBypassed: nat

    constructor ()
      ensures slotsAllocated == 0 && slotsFreed == 0 && subscriptionsRejected == 0 && compositeKeyCount == 0
      ensures evaluationsTotal == 0 && evaluationsEmpty == 0 && matchesTotal == 0
      ensures lastEvalUs == 0 && peakEvalUs == 0 && slowEvaluations == 0 && circuitTrips == 0 && circuitBypassed == 0
    {
      slotsAllocated, slotsFreed, subscriptionsRejected, compositeKeyCount := 0, 0, 0, 0;
      evaluationsTotal, evaluationsEmpty, matchesTotal := 0, 0, 0;
      lastEvalUs, peakEvalUs, slowEvaluations, circuitTrips, circuitBypassed := 0, 0, 0, 0, 0;
    }

    function Evaluations(): EvaluationCounts
      reads this
    {
      EvaluationCounts(evaluationsTotal, evaluationsEmpty, matchesTotal, lastEvalUs, peakEvalUs, slowEvaluations,
                       circuitTrips, circuitBypassed)
    }

    method RecordEvaluation(us: nat, matchCount: nat)
      modifies this`evaluationsTotal, this`matchesTotal, this`lastEvalUs, this`evaluationsEmpty, this`peakEvalUs
      ensures evaluationsTotal == old(evaluationsTotal) + 1
      ensures matchesTotal == old(matchesTotal) + matchCount
      ensures lastEvalUs == us
      ensures evaluationsEmpty == old(evaluationsEmpty) + (if matchCount == 0 then 1 else 0)
      ensures peakEvalUs == if us > old(peakEvalUs) then us else old(peakEvalUs)
    {
      evaluationsTotal := evaluationsTotal + 1;
      matchesTotal := matchesTotal + matchCount;
      lastEvalUs := us;
      if matchCount == 0 {
        evaluationsEmpty := evaluationsEmpty + 1;
      }
      if us > peakEvalUs {
        peakEvalUs := us;
      }
    }
  }

  class CircuitBreaker {
    const cfg: Config
    var consecutiveSlow: nat
    var open: bool
    var halfOpenProbe: bool
    var openedAtMs: nat

    constructor (cfg: Config)
      ensures this.cfg == cfg && State() == CLOSED
    {
      this.cfg := cfg;
      consecutiveSlow, open, halfOpenProbe, openedAtMs := 0, false, false, 0;
    }

    function State(): BreakerState
      reads this
    {
      BreakerState(consecutiveSlow, open, halfOpenProbe, openedAtMs)
    }

    /** Whether the caller should degrade; lets one probe through after the cooldown. A clock
        that went back leaves the cooldown running, unless there is none. */
    method IsOpen(nowMs: nat) returns (degrade: bool)
      modifies this
      ensures degrade == Degrades(cfg, old(State()), nowMs)
      ensures degrade <==> old(open) && ((cfg.cooldownMs > 0 && nowMs < old(openedAtMs) + cfg.cooldownMs)
                                         || old(halfOpenProbe))
      ensures halfOpenProbe <==> old(halfOpenProbe) || (old(open) && !degrade)
      ensures open == old(open) && openedAtMs == old(openedAtMs) && consecutiveSlow == old(consecutiveSlow)
      ensures State() == AfterCheck(cfg, old(State()), nowMs)
    {
      if !open {
        return false;
      }
      var elapsed := if nowMs >= openedAtMs then nowMs - openedAtMs else 0;
      if elapsed >= cfg.cooldownMs {
        if !halfOpenProbe {
          halfOpenProbe := true;
          return false;
        }
      }
      return true;
    }

    method Report(us: nat, nowMs: nat, stats: FilterIndexStats)
      requires consecutiveSlow < U32_RANGE
      modifies this, stats`slowEvaluations, stats`circuitTrips
      ensures State() == AfterReport(cfg, old(State()), us, nowMs)
      ensures stats.slowEvaluations == old(stats.slowEvaluations) + (if us > cfg.thresholdUs then 1 else 0)
      ensures stats.circuitTrips == old(stats.circuitTrips) + (if !old(open) && open then 1 else 0)
      ensures open <==> if us > cfg.thresholdUs then old(open) || old(consecutiveSlow) + 1 >= cfg.tripCount
                        else old(open) && !old(halfOpenProbe)
      ensures consecutiveSlow == if us > cfg.thresholdUs then (old(consecutiveSlow) + 1) % 0x1_0000_0000 else 0
      ensures openedAtMs == if us > cfg.thresholdUs && ((!old(open) && open) || old(halfOpenProbe)) then nowMs
                            else old(openedAtMs)
      ensures !halfOpenProbe
    {
      if us > cfg.thresholdUs {
        stats.slowEvaluations := stats.slowEvaluations + 1;
        var prev := consecutiveSlow;
        consecutiveSlow := (consecutiveSlow + 1) % U32_RANGE;
        if !open && prev + 1 >= cfg.tripCount {
          open := true;
          openedAtMs := nowMs;
          stats.circuitTrips := stats.circuitTrips + 1;
        }
        if halfOpenProbe {
          openedAtMs := nowMs;
          halfOpenProbe := false;
        }
      } else {
        consecutiveSlow := 0;
        if halfOpenProbe {
          open := false;
          halfOpenProbe := false;
        }
      }
    }
  }

  // ---------- Sequential runs ----------

  /** One evaluation: the time of the check, its duration, the time of the report. */
  datatype Evaluation = Evaluation(checkedAtMs: nat, us: nat, reportedAtMs: nat)

  function Step(cfg: Config, s: BreakerState, e: Evaluation): BreakerState {
    AfterReport(cfg, AfterCheck(cfg, s, e.checkedAtMs), e.us, e.reportedAtMs)
  }

  /** All counters after one evaluation that found `found` matches. */
  function AfterEvaluation(cfg: Config, s: BreakerState, c: EvaluationCounts, e: Evaluation,
                           found: nat): EvaluationCounts {
    EvaluationCounts(
      c.total + 1,
      c.empty + (if found == 0 then 1 else 0),
      c.matches + found,
      e.us,
      if e.us > c.peakUs then e.us else c.peakUs,
      c.slow + (if Slow(cfg, e.us) then 1 else 0),
      c.trips + (if Trips(cfg, AfterCheck(cfg, s, e.checkedAtMs), e.us) then 1 else 0),
      c.bypassed + (if Degrades(cfg, s, e.checkedAtMs) then 1 else 0))
  }

  function Run(cfg: Config, evals: seq<Evaluation>): BreakerState {
    if evals == [] then CLOSED
    else Step(cfg, Run(cfg, evals[..|evals| - 1]), evals[|evals| - 1])
  }

  /** What `circuit_trips` has counted after the run. */
  function TripCounter(cfg: Config, evals: seq<Evaluation>): nat {
    if evals == [] then 0
    else
      var before := Run(cfg, evals[..|evals| - 1]);
      var last := evals[|evals| - 1];
      TripCounter(cfg, evals[..|evals| - 1])
      + (if Trips(cfg, AfterCheck(cfg, before, last.checkedAtMs), last.us) then 1 else 0)
  }

  /** The circuit is open after evaluation `i` although it was closed before. */
  predicate OpensAt(cfg: Config, evals: seq<Evaluation>, i: nat)
    requires i < |evals|
  {
    !Run(cfg, evals[..i]).open && Run(cfg, evals[..i + 1]).open
  }

  function Openings(cfg: Config, evals: seq<Evaluation>): set<nat> {
    set i: nat | i < |evals| && OpensAt(cfg, evals, i)
  }

  /** How many of the last evaluations were slow without interruption. */
  function TrailingSlow(cfg: Config, evals: seq<Evaluation>): (n: nat)
    ensures n <= |evals|
    ensures forall i :: |evals| - n <= i < |evals| ==> evals[i].us > cfg.thresholdUs
    ensures n < |evals| ==> evals[|evals| - n - 1].us <= cfg.thresholdUs
  {
    if evals == [] || !Slow(cfg, evals[|evals| - 1].us) then 0
    else TrailingSlow(cfg, evals[..|evals| - 1]) + 1
  }

  function TripLevel(cfg: Config): nat {
    if cfg.tripCount == 0 then 1 else cfg.tripCount
  }

  ghost predicate Sound(cfg: Config, evals: seq<Evaluation>) {
    var s := Run(cfg, evals);
    && s.consecutiveSlow == TrailingSlow(cfg, evals) % U32_RANGE
    && !s.halfOpenProbe
    && (!s.open ==> TrailingSlow(cfg, evals) < TripLevel(cfg))
  }

  lemma {:induction false} EveryRunIsSound(cfg: Config, evals: seq<Evaluation>)
    requires cfg.tripCount < U32_RANGE
    ensures Sound(cfg, evals)
  {
    if evals != [] {
      EveryRunIsSound(cfg, evals[..|evals| - 1]);
      SlowStreakGrows(TrailingSlow(cfg, evals[..|evals| - 1]));
    }
  }

  lemma SlowStreakGrows(n: nat)
    ensures (n % U32_RANGE + 1) % U32_RANGE == (n + 1) % U32_RANGE
  {
  }

  /** The cooldown has not run out at the check; a clock that went back leaves it running,
      unless there is none. */
  predicate Cooling(cfg: Config, s: BreakerState, e: Evaluation) {
    cfg.cooldownMs > 0 && e.checkedAtMs < s.openedAtMs + cfg.cooldownMs
  }

  /** The transitions of every run, exactly, on clock values. While the circuit is closed the
      counter neither wraps nor overflows, so it opens at the evaluation that makes the
      slow ones in a row as many as the trip count, and at no other. While it is open a
      check degrades just during the cooldown, and the first after it is a probe: a fast
      one closes the circuit, a slow one starts the cooldown again. */
  lemma Transitions(cfg: Config, evals: seq<Evaluation>, e: Evaluation)
    requires cfg.tripCount < U32_RANGE
    ensures var s, t := Run(cfg, evals), Run(cfg, evals + [e]);
            && (!s.open ==> !Degrades(cfg, s, e.checkedAtMs))
            && (!s.open ==> (t.open <==> TrailingSlow(cfg, evals + [e]) ==
                                         if cfg.tripCount == 0 then 1 else cfg.tripCount))
            && (!s.open ==> s.consecutiveSlow == TrailingSlow(cfg, evals) && s.consecutiveSlow + 1 < U32_RANGE)
            && (s.open ==> (Degrades(cfg, s, e.checkedAtMs) <==>
                            cfg.cooldownMs > 0 && e.checkedAtMs < s.openedAtMs + cfg.cooldownMs))
            && (s.open ==> (!t.open <==>
                            !(cfg.cooldownMs > 0 && e.checkedAtMs < s.openedAtMs + cfg.cooldownMs)
                            && e.us <= cfg.thresholdUs))
            && (t.open ==> t.openedAtMs == if Degrades(cfg, s, e.checkedAtMs) then s.openedAtMs else e.reportedAtMs)
  {
    EveryRunIsSound(cfg, evals);
    assert (evals + [e])[..|evals|] == evals;
    StepTransitions(cfg, Run(cfg, evals), e, TrailingSlow(cfg, evals));
  }

  lemma StepTransitions(cfg: Config, s: BreakerState, e: Evaluation, streak: nat)
    requires cfg.tripCount < U32_RANGE && !s.halfOpenProbe
    requires s.consecutiveSlow == streak % U32_RANGE && (!s.open ==> streak < TripLevel(cfg))
    ensures var t := Step(cfg, s, e);
            && (!s.open ==> (t.open <==> e.us > cfg.thresholdUs && streak + 1 == TripLevel(cfg)))
            && (!s.open ==> s.consecutiveSlow == streak && streak + 1 < U32_RANGE)
            && (Degrades(cfg, s, e.checkedAtMs) <==> s.open && Cooling(cfg, s, e))
            && (s.open ==> (!t.open <==> !Cooling(cfg, s, e) && e.us <= cfg.thresholdUs))
            && (t.open ==> t.openedAtMs == if Degrades(cfg, s, e.checkedAtMs) then s.openedAtMs else e.reportedAtMs)
  {
    if !s.open {
      assert streak < U32_RANGE;
    }
  }

  lemma StepOpensIffTrips(cfg: Config, s: BreakerState, e: Evaluation)
    ensures !s.open && Step(cfg, s, e).open <==> Trips(cfg, AfterCheck(cfg, s, e.checkedAtMs), e.us)
  {
  }

  lemma EarlierOpenings(cfg: Config, init: seq<Evaluation>, e: Evaluation, i: nat)
    requires i < |init|
    ensures OpensAt(cfg, init + [e], i) <==> OpensAt(cfg, init, i)
  {
    assert (init + [e])[..i] == init[..i];
    assert (init + [e])[..i + 1] == init[..i + 1];
  }

  lemma LastOpening(cfg: Config, init: seq<Evaluation>, e: Evaluation)
    ensures OpensAt(cfg, init + [e], |init|) <==> !Run(cfg, init).open && Step(cfg, Run(cfg, init), e).open
  {
    var evals := init + [e];
    assert evals[..|init|] == init;
    assert evals[..|init| + 1] == evals;
    assert Run(cfg, evals) == Step(cfg, Run(cfg, init), e);
  }

  lemma OpeningsGrow(cfg: Config, init: seq<Evaluation>, e: Evaluation)
    ensures |Openings(cfg, init + [e])| == |Openings(cfg, init)| + (if OpensAt(cfg, init + [e], |init|) then 1 else 0)
  {
    var grown, before := Openings(cfg, init + [e]), Openings(cfg, init);
    forall i: nat ensures i in grown <==> i in before || (i == |init| && OpensAt(cfg, init + [e], i)) {
      if i < |init| {
        EarlierOpenings(cfg, init, e, i);
      }
    }
    if OpensAt(cfg, init + [e], |init|) {
      assert grown == before + {|init|};
    } else {
      assert grown == before;
    }
  }

  /** `circuit_trips` counts exactly the closed-to-open steps of the run. */
  lemma {:induction false} TripCounterCountsOpenings(cfg: Config, evals: seq<Evaluation>)
    ensures TripCounter(cfg, evals) == |Openings(cfg, evals)|
  {
    if evals == [] {
      assert Openings(cfg, evals) == {};
    } else {
      var init, last := evals[..|evals| - 1], evals[|evals| - 1];
      TripCounterCountsOpenings(cfg, init);
      StepOpensIffTrips(cfg, Run(cfg, init), last);
      LastOpening(cfg, init, last);
      OpeningsGrow(cfg, init, last);
      assert init + [last] == evals;
    }
  }
}
