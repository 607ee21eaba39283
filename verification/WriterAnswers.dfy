/** Who answers a client that closes, and when nobody does
    (`crates/realtime-gateway/src/ws_handler/connection.rs`, `writer.rs`). */
module WriterAnswers {
  import opened Writers

  /** The connection task is left waiting for nothing but a writer or a reader that runs. */
  ghost predicate TaskCanMove(s: State) {
    exists a, s' :: ByTask(a) && Step(s, s', a)
  }

  /** Once either side has ended the connection task has a step to take until it is done; a
      wait for the other side can always be given up. */
  lemma TaskIsNeverStuck(s: State)
    ensures TaskCanMove(s) <==> s.task != Finished && (s.task == Selecting ==> s.writer.Stopped? || s.reader.Ended?)
  {
    match s.task
    case Selecting =>
      if s.writer.Stopped? {
        assert Step(s, s.(task := AwaitingReader(s.writer.why != SaidGoodbye)), TaskSeesWriter);
      } else if s.reader.Ended? {
        var s' := if s.reader.how == ClientClose then MakeReady(s, Signalled).(task := AwaitingWriter)
                  else s.(task := TearingDown);
        assert Step(s, s', TaskSeesReader);
      }
    case AwaitingReader(_) => assert Step(s, s.(task := TearingDown), TaskGivesUp);
    case AwaitingWriter => assert Step(s, s.(task := TearingDown), TaskGivesUp);
    case Answering => assert Step(s, s.(task := TearingDown), TaskAnswers(false));
    case TearingDown =>
      var ready := if IsReady(s) then s else MakeReady(s, Dropped);
      assert Step(s, ready.(task := Finished, registered := false), TaskFinishes);
    case Finished =>
  }

  /** A wait that timed out, or a Close frame that could not be written. */
  predicate Mishap(a: Action) {
    a == TaskGivesUp || a == WriteClose(false) || a == TaskAnswers(false)
  }

  ghost predicate OrderlyNext(s: State, s': State) {
    exists a :: Step(s, s', a) && !Mishap(a)
  }

  /** A run without either. */
  ghost predicate IsOrderly(run: seq<State>) {
    IsRun(run) && forall n :: 0 <= n < |run| - 1 ==> OrderlyNext(run[n], run[n + 1])
  }

  predicate Closed(s: State) {
    s.wire != [] && s.wire[|s.wire| - 1] == Close
  }

  /** The client closed, and whoever was to answer has: the connection task for a writer it
      saw stop, the writer when it was asked to before it stopped. */
  predicate Answered(s: State) {
    && (s.writer == Stopped(SaidGoodbye) ==> Closed(s))
    && (s.task == AwaitingWriter ==> s.goodbye == Signalled)
    && (s.goodbye == Signalled && s.task != AwaitingWriter ==> s.writer.Stopped?)
    && (s.goodbye == Signalled ==> s.reader == Ended(ClientClose))
    && (s.reader == Ended(ClientClose) && s.goodbye != Signalled && (s.task == TearingDown || s.task == Finished)
        ==> Closed(s))
    && (Closed(s) ==> s.writer.Stopped?)
    && (Closed(s) && s.writer.why != SaidGoodbye ==>
          s.goodbye != Signalled && (s.task == TearingDown || s.task == Finished))
    && (s.goodbye == Dropped ==> s.task == Finished)
    && (s.task == Answering || s.task.AwaitingReader? ==> s.goodbye == Pending)
    && (s.task == TearingDown || s.task == Finished ==> s.reader.Ended?)
    && (s.task == Answering ==> s.reader == Ended(ClientClose))
  }

  lemma LookingWritesNothing(s: State, s': State)
    requires LookStep(s, s')
    ensures s'.wire == s.wire && s'.goodbye == s.goodbye && s'.reader == s.reader && s'.task == s.task
    ensures !s.writer.Stopped? && !s'.writer.Stopped?
  {
  }

  lemma WriterKeepsAnswered(s: State, s': State, a: Action)
    requires ProtocolOk(s) && Answered(s) && WriterStep(s, s', a) && !Mishap(a)
    ensures Answered(s')
  {
    hide LookStep;
    if a.Look? {
      LookingWritesNothing(s, s');
    }
  }

  lemma TaskKeepsAnswered(s: State, s': State, a: Action)
    requires ProtocolOk(s) && Answered(s) && TaskStep(s, s', a) && !Mishap(a)
    ensures Answered(s')
  {
  }

  lemma FeedKeepsAnswered(s: State, s': State, a: Action)
    requires ProtocolOk(s) && Answered(s) && FeedStep(s, s', a)
    ensures Answered(s')
  {
  }

  lemma {:induction false} OrderlyKeepsAnswered(run: seq<State>, n: nat)
    requires IsOrderly(run) && n < |run|
    ensures Answered(run[n])
  {
    hide Step, ControlInOrder, DataInOrder, ProtocolOk, LateOk, ClosesOnce, CountedSinceReady, CountedSinceEnd,
         PaceOk;
    if n > 0 {
      OrderlyKeepsAnswered(run, n - 1);
      RunKeepsInv(run, n - 1);
      assert OrderlyNext(run[n - 1], run[n - 1 + 1]);
      var a :| Step(run[n - 1], run[n], a) && !Mishap(a);
      StepKeepsAnswered(run[n - 1], run[n], a);
    }
  }

  lemma StepKeepsAnswered(s: State, s': State, a: Action)
    requires ProtocolOk(s) && Answered(s) && Step(s, s', a) && !Mishap(a)
    ensures Answered(s')
  {
    hide ProtocolOk, Answered, WriterStep, TaskStep, FeedStep;
    if ByWriter(a) {
      WriterKeepsAnswered(s, s', a);
    } else if ByTask(a) {
      TaskKeepsAnswered(s, s', a);
    } else {
      FeedKeepsAnswered(s, s', a);
    }
  }

  /** In every interleaving in which no wait times out and every Close can be written, a
      client that closed has been answered when the connection is done, if and only if the
      writer did not stop on a failed or slow frame after it had been asked to answer. */
  lemma ClientCloseIsAnswered(run: seq<State>, n: nat)
    requires IsOrderly(run) && n < |run|
    requires run[n].reader == Ended(ClientClose) && run[n].task == Finished
    ensures Close in run[n].wire <==> !(run[n].goodbye == Signalled && run[n].writer != Stopped(SaidGoodbye))
  {
    OrderlyKeepsAnswered(run, n);
    RunKeepsInv(run, n);
    var s := run[n];
    if Close in s.wire {
      var i :| 0 <= i < |s.wire| && s.wire[i] == Close;
      assert i == |s.wire| - 1;
    }
  }

  lemma OrderlyOn(run: seq<State>, s: State, s': State, a: Action) returns (longer: seq<State>)
    requires IsOrderly(run) && run != [] && run[|run| - 1] == s && Step(s, s', a) && !Mishap(a)
    ensures IsOrderly(longer) && longer != [] && longer[|longer| - 1] == s'
  {
    hide Step, Init;
    longer := run + [s'];
    assert OrderlyNext(s, s');
    forall n | 0 <= n < |longer| - 1 ensures Next(longer[n], longer[n + 1]) && OrderlyNext(longer[n], longer[n + 1]) {
      if n < |run| - 1 {
        assert Next(run[n], run[n + 1]) && OrderlyNext(run[n], run[n + 1]);
      } else {
        assert longer[n] == s && longer[n + 1] == s';
      }
    }
    assert longer[0] == run[0];
  }

  lemma StartIsOrderly()
    ensures IsOrderly([START])
  {
  }

  /** A reply is queued, the client closes, and the writer is asked to answer. */
  lemma AskToAnswer() returns (run: seq<State>)
    ensures IsOrderly(run) && run != []
    ensures var s := run[|run| - 1];
            && s.reader == Ended(ClientClose) && s.goodbye == Signalled && s.task == AwaitingWriter
            && s.writer == LookControl && s.control == ["reply"] && s.wire == []
  {
    hide IsOrderly, FreshTally;
    run := [START];
    StartIsOrderly();
    var s1 := START.(control := ["reply"], produced := ["reply"], late := 1);
    run := OrderlyOn(run, START, s1, Produce("reply"));
    var s2 := s1.(reader := Ended(ClientClose), sinceEnd := FreshTally(s1));
    run := OrderlyOn(run, s1, s2, EndReading(ClientClose));
    run := OrderlyOn(run, s2, MakeReady(s2, Signalled).(task := AwaitingWriter), TaskSeesReader);
  }

  /** The writer takes the one queued frame and its write fails. */
  lemma FailReply(run: seq<State>, s: State) returns (longer: seq<State>)
    requires IsOrderly(run) && run != [] && run[|run| - 1] == s && s.writer == LookControl && s.control == ["reply"]
    ensures IsOrderly(longer) && longer != []
    ensures var t := longer[|longer| - 1];
            && t.reader == s.reader && t.goodbye == s.goodbye && t.task == s.task && t.wire == s.wire
            && t.writer == Stopped(Failed) && t.unsent == ["reply"]
  {
    hide IsOrderly;
    var s1 := Turn(s, false).(control := s.control[1..], writer := Sending(Control(s.control[0])));
    longer := OrderlyOn(run, s, s1, Look);
    longer := OrderlyOn(longer, s1, s1.(writer := Stopped(Failed), unsent := ["reply"]), WriteFails);
  }

  /** The connection task sees the writer stop and is done. */
  lemma Finish(run: seq<State>, s: State) returns (longer: seq<State>)
    requires IsOrderly(run) && run != [] && run[|run| - 1] == s
    requires s.writer.Stopped? && s.goodbye == Signalled && s.task == AwaitingWriter
    ensures IsOrderly(longer) && longer != []
    ensures longer[|longer| - 1] == s.(task := Finished, registered := false)
  {
    hide IsOrderly;
    longer := OrderlyOn(run, s, s.(task := TearingDown), TaskSeesWriter);
    longer := OrderlyOn(longer, s.(task := TearingDown), s.(task := Finished, registered := false), TaskFinishes);
  }

  /** The writer is asked to answer and fails on the reply before: nobody sends a Close. */
  lemma ClientCloseCanGoUnanswered() returns (run: seq<State>)
    ensures IsOrderly(run) && run != []
    ensures var s := run[|run| - 1];
            s.reader == Ended(ClientClose) && s.task == Finished && s.wire == [] && s.unsent == ["reply"]
  {
    hide IsOrderly;
    run := AskToAnswer();
    run := FailReply(run, run[|run| - 1]);
    run := Finish(run, run[|run| - 1]);
  }
}
