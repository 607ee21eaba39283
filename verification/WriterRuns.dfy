/** What the writer's interleavings lead to: runs that show what can happen, and exactly when
    it can (`crates/realtime-gateway/src/ws_handler/writer.rs`, `connection.rs`). */
module WriterRuns {
  import opened Writers

  /** Some interleaving leads from one state to the other. */
  ghost predicate Leads(s: State, t: State) {
    exists path: seq<State> :: IsPath(path) && path[0] == s && path[|path| - 1] == t
  }

  ghost predicate Reachable(s: State) {
    Leads(START, s)
  }

  lemma LeadsToSelf(s: State)
    ensures Leads(s, s)
  {
    assert IsPath([s]);
    assert [s][|[s]| - 1] == s;
  }

  lemma LeadsOn(s: State, t: State, u: State, a: Action)
    requires Leads(s, t) && Step(t, u, a)
    ensures Leads(s, u)
  {
    hide Step;
    var path: seq<State> :| IsPath(path) && path[0] == s && path[|path| - 1] == t;
    var longer := path + [u];
    forall n | 0 <= n < |longer| - 1 ensures Next(longer[n], longer[n + 1]) {
      if n < |path| - 1 {
        assert Next(path[n], path[n + 1]);
      } else {
        assert longer[n] == t && longer[n + 1] == u;
      }
    }
    assert IsPath(longer) && longer[|longer| - 1] == u;
  }

  lemma {:induction false} PathKeepsInv(path: seq<State>, n: nat)
    requires IsPath(path) && Inv(path[0]) && n < |path|
    ensures Inv(path[n])
  {
    hide Inv, Step;
    if n > 0 {
      PathKeepsInv(path, n - 1);
      assert Next(path[n - 1], path[n - 1 + 1]);
      var a :| Step(path[n - 1], path[n], a);
      StepKeepsInv(path[n - 1], path[n], a);
    }
  }

  lemma LeadsKeepsInv(s: State, t: State)
    requires Inv(s) && Leads(s, t)
    ensures Inv(t)
  {
    hide Inv;
    var path: seq<State> :| IsPath(path) && path[0] == s && path[|path| - 1] == t;
    PathKeepsInv(path, |path| - 1);
  }

  // ---------- How a closing frame overtakes ----------

  /** The client closes and the connection task says goodbye, whatever the writer is at. */
  lemma SayGoodbye(s: State) returns (s': State)
    requires Reachable(s) && s.reader == Reading && s.task == Selecting && !IsReady(s)
    ensures Reachable(s')
    ensures var ended := s.(reader := Ended(ClientClose), sinceEnd := FreshTally(s));
            s' == MakeReady(ended, Signalled).(task := AwaitingWriter)
  {
    hide Leads;
    var ended := s.(reader := Ended(ClientClose), sinceEnd := FreshTally(s));
    s' := MakeReady(ended, Signalled).(task := AwaitingWriter);
    LeadsOn(START, s, ended, EndReading(ClientClose));
    LeadsOn(START, ended, s', TaskSeesReader);
  }

  /** The client closes and the connection task answers for a writer that has stopped. */
  lemma Answer(s: State) returns (s': State)
    requires Reachable(s) && s.reader == Reading && s.task == Selecting
    requires s.writer == Stopped(Failed) || s.writer == Stopped(SlowClient)
    ensures Reachable(s')
    ensures s' == s.(reader := Ended(ClientClose), sinceEnd := FreshTally(s), task := TearingDown,
                     wire := s.wire + [Close])
  {
    hide Leads;
    var ended := s.(reader := Ended(ClientClose), sinceEnd := FreshTally(s));
    var awaiting := ended.(task := AwaitingReader(true));
    var answering := awaiting.(task := Answering);
    s' := answering.(task := TearingDown, wire := s.wire + [Close]);
    LeadsOn(START, s, ended, EndReading(ClientClose));
    LeadsOn(START, ended, awaiting, TaskSeesWriter);
    LeadsOn(START, awaiting, answering, TaskSeesReader);
    LeadsOn(START, answering, s', TaskAnswers(true));
  }

  /** The window: a reply queued after the writer's look at the control queue, with the
      goodbye ready before its look at the goodbye, is overtaken by the closing frame. */
  lemma CloseCanOvertakeALateFrame()
    ensures exists s :: Reachable(s) && s.wire == [Close] && s.control == ["reply"] && s.produced == ["reply"]
  {
    hide Leads;
    var s1 := START.(writer := LookGoodbye);
    var s2 := s1.(control := ["reply"], produced := ["reply"], late := 1);
    LeadsToSelf(START);
    LeadsOn(START, START, s1, Look);
    LeadsOn(START, s1, s2, Produce("reply"));
    var s3 := SayGoodbye(s2);
    Overtake(s3);
  }

  lemma Overtake(s: State)
    requires Reachable(s) && IsReady(s) && s.writer == LookGoodbye
    requires s.wire == [] && s.control == ["reply"] && s.produced == ["reply"]
    ensures exists s' :: Reachable(s') && s'.wire == [Close] && s'.control == ["reply"] && s'.produced == ["reply"]
  {
    hide Leads;
    var closing := Turn(s, false).(writer := Closing);
    var closed := closing.(writer := Stopped(SaidGoodbye), wire := closing.wire + [Close]);
    LeadsOn(START, s, closing, Look);
    LeadsOn(START, closing, closed, WriteClose(true));
  }

  /** Two replies are queued, the write of the first fails, and the connection task's Close
      overtakes both. */
  lemma AnswerCanOvertakeAfterFailure()
    ensures exists s :: Reachable(s) && s.wire == [Close] && s.produced == ["a", "b"] && s.unsent == ["a"]
                        && s.control == ["b"]
  {
    hide Leads, FreshTally;
    LeadsToSelf(START);
    var s1 := Reply(START, "a");
    var s2 := Reply(s1, "b");
    assert s2.control == s2.produced == ["a", "b"];
    var s3 := FailFirst(s2);
    assert s3.control == ["b"] && s3.unsent == ["a"];
    var s4 := Answer(s3);
    assert s4.wire == [Close];
  }

  lemma Reply(s: State, text: string) returns (t: State)
    requires Reachable(s) && s.reader == Reading && !s.writer.Stopped? && |s.control| < CONTROL_CAPACITY
    ensures Reachable(t)
    ensures t == s.(control := s.control + [text], produced := s.produced + [text], late := s.late + 1)
  {
    hide Leads;
    t := s.(control := s.control + [text], produced := s.produced + [text], late := s.late + 1);
    LeadsOn(START, s, t, Produce(text));
  }

  /** The writer takes the first control frame and its write fails. */
  lemma FailFirst(s: State) returns (t: State)
    requires Reachable(s) && s.writer == LookControl && s.control != []
    ensures Reachable(t)
    ensures t == Turn(s, false).(control := s.control[1..], writer := Stopped(Failed), unsent := [s.control[0]])
  {
    hide Leads;
    var sending := Turn(s, false).(control := s.control[1..], writer := Sending(Control(s.control[0])));
    t := sending.(writer := Stopped(Failed), unsent := [s.control[0]]);
    LeadsOn(START, s, sending, Look);
    LeadsOn(START, sending, t, WriteFails);
  }

  /** `k` slow data frames have gone out. */
  ghost predicate SlowSoFar(s: State, k: nat) {
    && s.writer == LookControl && s.slowCount == k && s.control == [] && s.data == [] && s.registered
    && s.reader == Reading && s.task == Selecting && s.produced == [] && !IsReady(s) && Close !in s.wire
  }

  lemma {:induction false} SlowRun(k: nat) returns (s: State)
    requires k <= SLOW_LIMIT
    ensures Reachable(s) && SlowSoFar(s, k)
  {
    hide Leads;
    if k == 0 {
      s := START;
      LeadsToSelf(START);
    } else {
      var before := SlowRun(k - 1);
      var sending := SelectData(START, before);
      s := sending.(wire := sending.wire + [Data(7)], pace := sending.pace + [true], slowCount := k,
                    writer := LookControl);
      LeadsOn(START, sending, s, Write(SLOW_MS + 1));
    }
  }

  /** From a look at an empty control queue, with no goodbye, to a data frame in hand. */
  lemma SelectData(from: State, s: State) returns (t: State)
    requires Leads(from, s) && s.writer == LookControl && s.control == [] && !IsReady(s) && s.data == [] && s.registered
    ensures Leads(from, t) && t == AfterTaking(AfterEnqueue(s, 7).(late := 0, writer := LookData), false)
    ensures t.data == [] && t.writer == Sending(Data(7))
  {
    hide Leads;
    var s1 := AfterEnqueue(s, 7);
    var s2 := s1.(writer := LookGoodbye, late := 0);
    var s3 := s2.(writer := LookData);
    t := AfterTaking(s3, false);
    assert s.data + [7] == [7] && s3.data[1..] == [];
    LeadsOn(from, s, s1, Enqueue(7));
    LeadsOn(from, s1, s2, Look);
    LeadsOn(from, s2, s3, Look);
    LeadsOn(from, s3, t, Look);
  }

  /** The socket works throughout: eleven slow frames make the writer stop with an error
      still queued, and the connection task's Close overtakes it. */
  lemma AnswerCanOvertakeASlowClient()
    ensures exists s :: Reachable(s) && s.writer == Stopped(SlowClient) && s.control == ["error"]
                        && s.produced == ["error"] && s.wire != [] && s.wire[|s.wire| - 1] == Close
  {
    hide Leads;
    var s1 := SlowRun(SLOW_LIMIT);
    var s2 := SelectData(START, s1);
    var s3 := s2.(control := ["error"], produced := ["error"], late := 1);
    var s4 := s3.(wire := s3.wire + [Data(7)], pace := s3.pace + [true], slowCount := SLOW_LIMIT + 1,
                  writer := Stopped(SlowClient));
    assert s2.control + ["error"] == ["error"] && s2.produced + ["error"] == ["error"];
    LeadsOn(START, s2, s3, Produce("error"));
    LeadsOn(START, s3, s4, Write(SLOW_MS + 1));
    var s5 := Answer(s4);
  }

  // ---------- Data after the goodbye is ready ----------

  /** Nothing can come from the data queue any more. */
  predicate DataDone(s: State) {
    s.data == [] && !s.registered
  }

  lemma {:induction false} PathStaysReady(path: seq<State>, n: nat)
    requires IsPath(path) && n < |path| && Inv(path[0]) && IsReady(path[0])
    ensures IsReady(path[n]) && path[n].sinceReady.looking == path[0].sinceReady.looking
    ensures DataDone(path[0]) ==> DataDone(path[n]) && path[n].sinceReady.dataTurns == path[0].sinceReady.dataTurns
  {
    hide Inv, Step;
    if n > 0 {
      PathStaysReady(path, n - 1);
      PathKeepsInv(path, n - 1);
      assert Next(path[n - 1], path[n - 1 + 1]);
      var a :| Step(path[n - 1], path[n], a);
      StepStaysReady(path[n - 1], path[n], a);
    }
  }

  lemma WriterStaysReady(s: State, s': State, a: Action)
    requires ProtocolOk(s) && IsReady(s) && WriterStep(s, s', a)
    ensures IsReady(s') && s'.sinceReady.looking == s.sinceReady.looking
    ensures DataDone(s) ==> DataDone(s') && s'.sinceReady.dataTurns == s.sinceReady.dataTurns
  {
  }

  lemma TaskStaysReady(s: State, s': State, a: Action)
    requires ProtocolOk(s) && IsReady(s) && TaskStep(s, s', a)
    ensures IsReady(s') && s'.sinceReady.looking == s.sinceReady.looking
    ensures DataDone(s) ==> DataDone(s') && s'.sinceReady.dataTurns == s.sinceReady.dataTurns
  {
  }

  lemma FeedStaysReady(s: State, s': State, a: Action)
    requires ProtocolOk(s) && IsReady(s) && FeedStep(s, s', a)
    ensures IsReady(s') && s'.sinceReady.looking == s.sinceReady.looking
    ensures DataDone(s) ==> DataDone(s') && s'.sinceReady.dataTurns == s.sinceReady.dataTurns
  {
  }

  lemma StepStaysReady(s: State, s': State, a: Action)
    requires Inv(s) && IsReady(s) && Step(s, s', a)
    ensures IsReady(s') && s'.sinceReady.looking == s.sinceReady.looking
    ensures DataDone(s) ==> DataDone(s') && s'.sinceReady.dataTurns == s.sinceReady.dataTurns
  {
    hide ControlInOrder, ProtocolOk, LateOk, ClosesOnce, CountedSinceReady, CountedSinceEnd, PaceOk, WriterStep,
         TaskStep, FeedStep;
    if ByWriter(a) {
      WriterStaysReady(s, s', a);
    } else if ByTask(a) {
      TaskStaysReady(s, s', a);
    } else {
      FeedStaysReady(s, s', a);
    }
  }

  /** When the goodbye becomes ready, no continuation selects a data frame if and only if the
      writer is not looking at the data queue, or that is empty with its sender gone. */
  lemma DataAfterGoodbyeExactness(s: State, s0: State, a: Action)
    requires Inv(s) && Step(s, s0, a) && !IsReady(s) && IsReady(s0)
    ensures (forall t :: Leads(s0, t) ==> t.sinceReady.dataTurns == 0) <==> s0.writer != LookData || DataDone(s0)
  {
    hide Leads, Inv;
    StepKeepsInv(s, s0, a);
    FreshAtReady(s, s0, a);
    if s0.writer != LookData || DataDone(s0) {
      forall t | Leads(s0, t) ensures t.sinceReady.dataTurns == 0 {
        NoDataAfterGoodbye(s0, t);
      }
    } else {
      var s1 := if s0.data == [] then AfterEnqueue(s0, 7) else s0;
      var s2 := AfterTaking(s1, false);
      LeadsToSelf(s0);
      if s0.data == [] {
        LeadsOn(s0, s0, s1, Enqueue(7));
      }
      LeadsOn(s0, s1, s2, Look);
      assert s2.sinceReady.dataTurns == 1;
    }
  }

  lemma FreshAtReady(s: State, s0: State, a: Action)
    requires Step(s, s0, a) && !IsReady(s) && IsReady(s0)
    ensures s0.sinceReady.dataTurns == 0 && s0.sinceReady.looking == (s0.writer == LookData)
  {
  }

  lemma NoDataAfterGoodbye(s0: State, t: State)
    requires Inv(s0) && IsReady(s0) && Leads(s0, t) && s0.sinceReady.dataTurns == 0
    requires !s0.sinceReady.looking || DataDone(s0)
    ensures t.sinceReady.dataTurns == 0
  {
    var path: seq<State> :| IsPath(path) && path[0] == s0 && path[|path| - 1] == t;
    PathStaysReady(path, |path| - 1);
    PathKeepsInv(path, |path| - 1);
  }

  // ---------- Turns from the reader's end ----------

  /** From the reader's end no number of turns bounds the writer: before the goodbye is
      ready it can take any number of data frames. */
  lemma {:induction false} DataCanFollowReaderEnd(k: nat) returns (s: State)
    ensures Reachable(s) && s.reader.Ended? && !IsReady(s)
    ensures s.sinceEnd.backlog == 0 && s.sinceEnd.dataTurns == s.sinceEnd.turns == k
    ensures s.writer == LookControl && s.control == [] && s.data == [] && s.registered
  {
    hide Leads;
    if k == 0 {
      s := START.(reader := Ended(ClientClose), sinceEnd := FreshTally(START));
      LeadsToSelf(START);
      LeadsOn(START, START, s, EndReading(ClientClose));
    } else {
      var s0 := DataCanFollowReaderEnd(k - 1);
      var sending := SelectData(START, s0);
      s := SendInHand(START, sending);
    }
  }

  /** A fast write of the frame in hand. */
  lemma SendInHand(from: State, s: State) returns (t: State)
    requires Leads(from, s) && s.writer.Sending?
    ensures Leads(from, t)
    ensures t == s.(wire := s.wire + [s.writer.frame], pace := s.pace + [false], slowCount := 0, writer := LookControl)
  {
    hide Leads;
    t := s.(wire := s.wire + [s.writer.frame], pace := s.pace + [false], slowCount := 0, writer := LookControl);
    LeadsOn(from, s, t, Write(0));
  }

  /** The reader has ended, the writer runs, and the goodbye is still to come. */
  predicate Open(s: State) {
    s.reader.Ended? && !IsReady(s) && s.task == Selecting && !s.writer.Stopped? && s.writer != Closing
  }

  /** A data frame was taken since the reader's end, or one can still be. */
  predicate Armed(s: State) {
    s.sinceEnd.dataTurns >= 1 || s.data != [] || s.registered
  }

  function StepsToLook(w: Writer): nat {
    match w
    case LookControl => 0
    case LookGoodbye => 3
    case LookData => 2
    case _ => 1
  }

  /** The writer comes back to look at the control queue. */
  lemma {:induction false} ComeBack(from: State, s: State) returns (t: State)
    requires Leads(from, s) && Open(s) && Armed(s)
    ensures Leads(from, t) && Open(t) && Armed(t) && t.writer == LookControl
    decreases StepsToLook(s.writer)
  {
    hide Leads;
    match s.writer
    case LookControl => t := s;
    case LookGoodbye =>
      var next := s.(writer := LookData);
      LeadsOn(from, s, next, Look);
      t := ComeBack(from, next);
    case LookData =>
      var next := if s.data != [] then AfterTaking(s, false) else s.(writer := Parked);
      LeadsOn(from, s, next, Look);
      t := ComeBack(from, next);
    case Parked =>
      t := s.(writer := LookControl);
      LeadsOn(from, s, t, SpuriousWake);
    case Sending(_) => t := SendInHand(from, s);
  }

  lemma {:induction false} Drain(from: State, s: State) returns (t: State)
    requires Leads(from, s) && Open(s) && Armed(s) && s.writer == LookControl
    ensures Leads(from, t) && Open(t) && Armed(t) && t.writer == LookControl && t.control == []
    decreases |s.control|
  {
    hide Leads;
    if s.control == [] {
      t := s;
    } else {
      var sending := Turn(s, false).(control := s.control[1..], writer := Sending(Control(s.control[0])));
      LeadsOn(from, s, sending, Look);
      var sent := SendInHand(from, sending);
      t := Drain(from, sent);
    }
  }

  /** One data frame goes out, unless one has. */
  lemma TakeData(from: State, s: State) returns (t: State)
    requires Leads(from, s) && Open(s) && Armed(s) && s.writer == LookControl && s.control == []
    ensures Leads(from, t) && Open(t) && t.writer == LookControl && t.control == [] && t.sinceEnd.dataTurns >= 1
  {
    hide Leads;
    if s.sinceEnd.dataTurns >= 1 {
      t := s;
    } else if s.data == [] {
      var sending := SelectData(from, s);
      t := SendInHand(from, sending);
    } else {
      var s1 := s.(writer := LookGoodbye, late := 0);
      var s2 := s1.(writer := LookData);
      var sending := AfterTaking(s2, false);
      LeadsOn(from, s, s1, Look);
      LeadsOn(from, s1, s2, Look);
      LeadsOn(from, s2, sending, Look);
      t := SendInHand(from, sending);
    }
  }

  /** The goodbye becomes ready and the writer is about to answer it. */
  lemma ComeToClose(from: State, s: State) returns (t: State)
    requires Leads(from, s) && Open(s) && s.writer == LookControl && s.control == []
    ensures Leads(from, t) && t.writer == Closing && t.control == []
    ensures t.reader.Ended? && t.sinceEnd.dataTurns == s.sinceEnd.dataTurns
  {
    hide Leads;
    var ready: State;
    if s.reader.how == ClientClose {
      ready := MakeReady(s, Signalled).(task := AwaitingWriter);
      LeadsOn(from, s, ready, TaskSeesReader);
    } else {
      var tearing := s.(task := TearingDown);
      ready := MakeReady(tearing, Dropped).(task := Finished, registered := false);
      LeadsOn(from, s, tearing, TaskSeesReader);
      LeadsOn(from, tearing, ready, TaskFinishes);
    }
    var looked := ready.(writer := LookGoodbye, late := 0);
    t := Turn(looked, false).(writer := Closing);
    LeadsOn(from, ready, looked, Look);
    LeadsOn(from, looked, t, Look);
  }

  lemma {:induction false} PathStaysQuiet(path: seq<State>, n: nat)
    requires IsPath(path) && n < |path| && path[0].reader.Ended?
    requires path[0].sinceEnd.turns == path[0].sinceEnd.dataTurns == 0
    ensures path[n].reader.Ended?
    ensures path[0].writer.Stopped? ==> path[n].writer.Stopped? && path[n].sinceEnd.turns == 0
    ensures DataDone(path[0]) ==> DataDone(path[n]) && path[n].sinceEnd.dataTurns == 0
  {
    hide Step;
    if n > 0 {
      PathStaysQuiet(path, n - 1);
      assert Next(path[n - 1], path[n - 1 + 1]);
      var a :| Step(path[n - 1], path[n], a);
      StepStaysQuiet(path[n - 1], path[n], a);
    }
  }

  lemma StepStaysQuiet(s: State, s': State, a: Action)
    requires s.reader.Ended? && Step(s, s', a)
    ensures s'.reader.Ended?
    ensures s.writer.Stopped? ==> s'.writer.Stopped? && s'.sinceEnd == s.sinceEnd
    ensures DataDone(s) ==> DataDone(s') && s'.sinceEnd.dataTurns == s.sinceEnd.dataTurns
  {
  }

  /** Within the control frames queued at the reader's end, and one more. */
  predicate WithinBacklog(s: State) {
    s.sinceEnd.turns <= s.sinceEnd.backlog + 1
  }

  lemma QuietIsWithin(s0: State, t: State)
    requires Inv(s0) && Leads(s0, t) && s0.reader.Ended? && s0.sinceEnd.turns == s0.sinceEnd.dataTurns == 0
    requires s0.writer.Stopped? || DataDone(s0)
    ensures WithinBacklog(t)
  {
    var path: seq<State> :| IsPath(path) && path[0] == s0 && path[|path| - 1] == t;
    PathStaysQuiet(path, |path| - 1);
    PathKeepsInv(path, |path| - 1);
  }

  lemma LoudGoesBeyond(s0: State) returns (t: State)
    requires Inv(s0) && Open(s0) && Armed(s0)
    ensures Leads(s0, t) && !WithinBacklog(t)
  {
    hide Leads, Inv;
    LeadsToSelf(s0);
    var s1 := ComeBack(s0, s0);
    var s2 := Drain(s0, s1);
    var s3 := TakeData(s0, s2);
    t := ComeToClose(s0, s3);
    LeadsKeepsInv(s0, t);
    ClosingTurns(t);
  }

  lemma ClosingTurns(t: State)
    requires Inv(t) && t.reader.Ended? && t.writer == Closing && t.control == []
    ensures t.sinceEnd.turns == t.sinceEnd.backlog + t.sinceEnd.dataTurns + 1
  {
  }

  /** At the reader's end: in every continuation the writer's turns stay within the control
      frames queued then and one more, if and only if the writer has already stopped, or
      the data queue is empty with its sender gone. */
  lemma TurnsBoundExactness(s: State, s0: State, how: Ending)
    requires Inv(s) && Step(s, s0, EndReading(how))
    ensures (forall t :: Leads(s0, t) ==> WithinBacklog(t)) <==> s.writer.Stopped? || DataDone(s)
  {
    hide Leads, Inv, WithinBacklog;
    StepKeepsInv(s, s0, EndReading(how));
    if s.writer.Stopped? || DataDone(s) {
      forall t | Leads(s0, t) ensures WithinBacklog(t) {
        QuietIsWithin(s0, t);
      }
    } else {
      OpenAtEnd(s, s0, how);
      var t := LoudGoesBeyond(s0);
    }
  }

  lemma OpenAtEnd(s: State, s0: State, how: Ending)
    requires Inv(s) && Step(s, s0, EndReading(how)) && !s.writer.Stopped?
    ensures Open(s0)
  {
  }
}
