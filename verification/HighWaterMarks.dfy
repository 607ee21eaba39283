/** The compare-and-swap loop behind the high-water marks, as interleaved steps
    (`crates/realtime-engine/src/router.rs`, `filter_index/stats.rs`). */
module HighWaterMarks {

  /** Where one caller is: before its load, holding the value it last saw, or back. */
  datatype Caller = Calling | Holding(seen: nat) | Returned

  /** `submitted[i]` is what caller `i` offers; `mark` is the shared cell. */
  datatype State = State(mark: nat, callers: seq<Caller>)

  predicate Init(submitted: seq<nat>, initial: nat, s: State) {
    s.mark == initial && |s.callers| == |submitted| && forall i :: 0 <= i < |s.callers| ==> s.callers[i] == Calling
  }

  datatype Action = Load | GiveUp | Swap | Miss

  /** One atomic step of caller `i`. A `Miss` is a failed exchange: the cell had
      changed, or the weak exchange failed for no reason. */
  predicate Step(submitted: seq<nat>, s: State, t: State, i: nat, a: Action) {
    && i < |submitted| == |s.callers|
    && match a
       case Load => s.callers[i] == Calling && t == s.(callers := s.callers[i := Holding(s.mark)])
       case GiveUp =>
         && s.callers[i].Holding? && submitted[i] <= s.callers[i].seen
         && t == s.(callers := s.callers[i := Returned])
       case Swap =>
         && s.callers[i].Holding? && submitted[i] > s.callers[i].seen && s.mark == s.callers[i].seen
         && t == State(submitted[i], s.callers[i := Returned])
       case Miss =>
         && s.callers[i].Holding? && submitted[i] > s.callers[i].seen
         && t == s.(callers := s.callers[i := Holding(s.mark)])
  }

  ghost predicate Next(submitted: seq<nat>, s: State, t: State) {
    exists i, a :: Step(submitted, s, t, i, a)
  }

  ghost predicate IsRun(submitted: seq<nat>, initial: nat, run: seq<State>) {
    && |run| > 0
    && Init(submitted, initial, run[0])
    && forall n :: 0 <= n < |run| - 1 ==> Next(submitted, run[n], run[n + 1])
  }

  predicate Offered(submitted: seq<nat>, initial: nat, v: nat) {
    v == initial || v in submitted
  }

  ghost predicate Inv(submitted: seq<nat>, initial: nat, s: State) {
    && |s.callers| == |submitted|
    && initial <= s.mark
    && Offered(submitted, initial, s.mark)
    && (forall i :: 0 <= i < |s.callers| && s.callers[i].Holding? ==> s.callers[i].seen <= s.mark)
    && (forall i :: 0 <= i < |s.callers| && s.callers[i].Returned? ==> submitted[i] <= s.mark)
  }

  lemma StepKeepsInv(submitted: seq<nat>, initial: nat, s: State, t: State)
    requires Inv(submitted, initial, s) && Next(submitted, s, t)
    ensures Inv(submitted, initial, t) && s.mark <= t.mark
  {
    var i, a :| Step(submitted, s, t, i, a);
    assert forall j :: 0 <= j < |s.callers| && j != i ==> t.callers[j] == s.callers[j];
  }

  lemma {:induction false} RunKeepsInv(submitted: seq<nat>, initial: nat, run: seq<State>, n: nat)
    requires IsRun(submitted, initial, run) && n < |run|
    ensures Inv(submitted, initial, run[n])
  {
    if n > 0 {
      RunKeepsInv(submitted, initial, run, n - 1);
      assert Next(submitted, run[n - 1], run[n - 1 + 1]);
      StepKeepsInv(submitted, initial, run[n - 1], run[n]);
    }
  }

  /** The mark never decreases along a run. */
  lemma {:induction false} MarkNeverDecreases(submitted: seq<nat>, initial: nat, run: seq<State>, m: nat, n: nat)
    requires IsRun(submitted, initial, run) && m <= n < |run|
    ensures run[m].mark <= run[n].mark
  {
    if m < n {
      MarkNeverDecreases(submitted, initial, run, m, n - 1);
      RunKeepsInv(submitted, initial, run, n - 1);
      assert Next(submitted, run[n - 1], run[n - 1 + 1]);
      StepKeepsInv(submitted, initial, run[n - 1], run[n]);
    }
  }

  ghost predicate IsMaximum(submitted: seq<nat>, initial: nat, v: nat) {
    && Offered(submitted, initial, v)
    && initial <= v
    && forall i :: 0 <= i < |submitted| ==> submitted[i] <= v
  }

  /** For any number of callers and any interleaving, with or without spurious
      failures: the mark is always the initial value or an offered one, and once all
      calls have returned it is the maximum. */
  lemma FinalMarkIsMaximum(submitted: seq<nat>, initial: nat, run: seq<State>)
    requires IsRun(submitted, initial, run)
    ensures forall n :: 0 <= n < |run| ==> run[n].mark == initial || run[n].mark in submitted
    ensures var last := run[|run| - 1];
            (forall i :: 0 <= i < |last.callers| ==> last.callers[i] == Returned)
                ==> IsMaximum(submitted, initial, last.mark)
  {
    forall n | 0 <= n < |run| ensures Inv(submitted, initial, run[n]) {
      RunKeepsInv(submitted, initial, run, n);
    }
  }

  /** An exchange fails for a reason only if another caller raised the mark meanwhile,
      so a caller that keeps missing for a reason sees the mark grow each time. */
  lemma ReasonedMissMeansProgress(submitted: seq<nat>, initial: nat, s: State, t: State, i: nat)
    requires Inv(submitted, initial, s) && Step(submitted, s, t, i, Miss) && s.mark != s.callers[i].seen
    ensures t.callers[i].seen > s.callers[i].seen
  {
  }

  ghost predicate Enabled(submitted: seq<nat>, s: State, i: nat, a: Action) {
    exists t :: Step(submitted, s, t, i, a)
  }

  /** A caller is never stuck before it returns, and goes on just while what it offers is
      larger than what it saw. */
  lemma CallerMoves(submitted: seq<nat>, s: State, i: nat)
    requires i < |submitted| == |s.callers|
    ensures Enabled(submitted, s, i, Load) <==> s.callers[i] == Calling
    ensures Enabled(submitted, s, i, GiveUp) <==> s.callers[i].Holding? && submitted[i] <= s.callers[i].seen
    ensures Enabled(submitted, s, i, Miss) <==> s.callers[i].Holding? && submitted[i] > s.callers[i].seen
    ensures Enabled(submitted, s, i, Swap) <==>
            s.callers[i].Holding? && submitted[i] > s.callers[i].seen && s.mark == s.callers[i].seen
  {
    var held := s.(callers := s.callers[i := Holding(s.mark)]);
    var back := s.(callers := s.callers[i := Returned]);
    var swapped := State(submitted[i], s.callers[i := Returned]);
    assert s.callers[i] == Calling ==> Step(submitted, s, held, i, Load);
    if s.callers[i].Holding? {
      assert submitted[i] > s.callers[i].seen ==> Step(submitted, s, held, i, Miss);
      assert submitted[i] <= s.callers[i].seen ==> Step(submitted, s, back, i, GiveUp);
      assert submitted[i] > s.callers[i].seen && s.mark == s.callers[i].seen ==> Step(submitted, s, swapped, i, Swap);
    }
  }

  /** A call nobody interrupts leaves the larger of the mark and its value. */
  lemma UninterruptedCall(submitted: seq<nat>, s: State, i: nat) returns (t: State)
    requires i < |submitted| == |s.callers| && s.callers[i] == Calling
    ensures exists held, a :: Step(submitted, s, held, i, Load) && Step(submitted, held, t, i, a)
    ensures t.callers == s.callers[i := Returned]
    ensures t.mark == if submitted[i] > s.mark then submitted[i] else s.mark
  {
    var held := s.(callers := s.callers[i := Holding(s.mark)]);
    assert held.callers[i := Returned] == s.callers[i := Returned];
    if submitted[i] > s.mark {
      t := State(submitted[i], s.callers[i := Returned]);
      assert Step(submitted, held, t, i, Swap);
    } else {
      t := s.(callers := s.callers[i := Returned]);
      assert Step(submitted, held, t, i, GiveUp);
    }
    assert Step(submitted, s, held, i, Load);
  }
}
