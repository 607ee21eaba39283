/** The WebSocket writer, the reader and the connection task as interleaved steps
    (`crates/realtime-gateway/src/ws_handler/writer.rs`, `connection.rs`).

    The writer's select is biased: one turn looks at the control queue, then at the
    goodbye, then at the data queue. The three looks are separate steps here, because
    other tasks can act between them. */
module Writers {

  datatype Frame = Control(text: string) | Data(event: nat) | Close

  datatype Ending = ClientClose | Gone

  datatype Reader = Reading | Ended(how: Ending)

  /** The goodbye channel: nothing yet, a signal, or its sender dropped. */
  datatype Goodbye = Pending | Signalled | Dropped

  datatype Stop = SaidGoodbye | SlowClient | Failed

  datatype Writer = LookControl | LookGoodbye | LookData | Parked | Sending(frame: Frame) | Closing | Stopped(why: Stop)

  datatype Task = Selecting | AwaitingReader(sink: bool) | Answering | AwaitingWriter | TearingDown | Finished

  /** What the writer has done since some moment: the control frames queued then, whether
      it was looking at the data queue then, and the select turns completed since, in all
      and with a data frame. */
  datatype Tally = Tally(backlog: nat, looking: bool, turns: nat, dataTurns: nat)

  /** An event taken from the data queue, sent or skipped because it could not be serialized. */
  datatype Taken = Taken(event: nat, skipped: bool)

  /** `wire` is what was written. The other histories: control frames produced, the one in
      hand when a write failed, those refused because the writer had stopped, events queued
      and events taken, whether each sent frame was slow, frames queued since the writer last
      looked at the control queue, and tallies from the moment the goodbye was ready and
      from the reader's end. */
  datatype State = State(
    control: seq<string>,
    data: seq<nat>,
    registered: bool,
    goodbye: Goodbye,
    reader: Reader,
    writer: Writer,
    task: Task,
    slowCount: nat,
    wire: seq<Frame>,
    produced: seq<string>,
    unsent: seq<string>,
    refused: seq<string>,
    enqueued: seq<nat>,
    taken: seq<Taken>,
    pace: seq<bool>,
    late: nat,
    sinceReady: Tally,
    sinceEnd: Tally)

  datatype Action =
    | Produce(text: string)
    | EndReading(how: Ending)
    | Enqueue(event: nat)
    | Unregister
    | Look
    | SkipUnserializable
    | Wake
    | SpuriousWake
    | Write(elapsedMs: nat)
    | WriteFails
    | WriteClose(written: bool)
    | TaskSeesWriter
    | TaskSeesReader
    | TaskGivesUp
    | TaskAnswers(written: bool)
    | TaskFinishes

  const CONTROL_CAPACITY: nat := 64
  const SLOW_MS: nat := 100
  const SLOW_LIMIT: nat := 10

  function NextSlowCount(slowCount: nat, elapsedMs: nat): nat {
    if elapsedMs > SLOW_MS then slowCount + 1 else 0
  }

  predicate IsReady(s: State) {
    s.goodbye != Pending
  }

  function FreshTally(s: State): Tally {
    Tally(|s.control|, s.writer == LookData, 0, 0)
  }

  function MakeReady(s: State, goodbye: Goodbye): State {
    s.(goodbye := goodbye, sinceReady := FreshTally(s))
  }

  function Count(t: Tally, isData: bool): Tally {
    t.(turns := t.turns + 1, dataTurns := t.dataTurns + (if isData then 1 else 0))
  }

  /** One completed select turn. */
  function Turn(s: State, isData: bool): State {
    s.(sinceReady := Count(s.sinceReady, isData), sinceEnd := Count(s.sinceEnd, isData))
  }

  function InHand(w: Writer): seq<string> {
    if w.Sending? && w.frame.Control? then [w.frame.text] else []
  }

  function AfterEnqueue(s: State, event: nat): State {
    s.(data := s.data + [event], enqueued := s.enqueued + [event])
  }

  /** A select turn that takes the next event, to send or to skip it. */
  function AfterTaking(s: State, skip: bool): State
    requires s.data != []
  {
    Turn(s, true).(data := s.data[1..], taken := s.taken + [Taken(s.data[0], skip)],
                   writer := if skip then LookControl else Sending(Data(s.data[0])))
  }

  predicate LookStep(s: State, s': State) {
    match s.writer
    case LookControl =>
      if s.control != [] then
        s' == Turn(s, false).(control := s.control[1..], writer := Sending(Control(s.control[0])))
      else s' == s.(writer := LookGoodbye, late := 0)
    case LookGoodbye =>
      if IsReady(s) then s' == Turn(s, false).(writer := Closing) else s' == s.(writer := LookData)
    case LookData =>
      if s.data != [] then s' == AfterTaking(s, false)
      else s' == s.(writer := Parked)
    case _ => false
  }

  /** Something a parked writer waits for has come. */
  predicate SomethingCame(s: State) {
    s.control != [] || s.data != [] || IsReady(s)
  }

  predicate WriteStep(s: State, s': State, elapsedMs: nat) {
    && s.writer.Sending?
    && var slow := NextSlowCount(s.slowCount, elapsedMs);
       s' == s.(wire := s.wire + [s.writer.frame], slowCount := slow, pace := s.pace + [elapsedMs > SLOW_MS],
                writer := if slow > SLOW_LIMIT then Stopped(SlowClient) else LookControl)
  }

  /** What the reader and the fan-out feed in. */
  predicate FeedStep(s: State, s': State, a: Action) {
    match a
    case Produce(text) =>
      && s.reader == Reading
      && (if s.writer.Stopped? then s' == s.(refused := s.refused + [text], produced := s.produced + [text])
          else
            && |s.control| < CONTROL_CAPACITY
            && s' == s.(control := s.control + [text], produced := s.produced + [text], late := s.late + 1))
    case EndReading(how) => s.reader == Reading && s' == s.(reader := Ended(how), sinceEnd := FreshTally(s))
    case Enqueue(event) => s.registered && s' == AfterEnqueue(s, event)
    case Unregister => s' == s.(registered := false)
    case _ => false
  }

  predicate WriterStep(s: State, s': State, a: Action) {
    match a
    case Look => LookStep(s, s')
    case SkipUnserializable => s.writer == LookData && s.data != [] && s' == AfterTaking(s, true)
    case Wake => s.writer == Parked && SomethingCame(s) && s' == s.(writer := LookControl)
    case SpuriousWake => s.writer == Parked && s' == s.(writer := LookControl)
    case Write(elapsedMs) => WriteStep(s, s', elapsedMs)
    case WriteFails => s.writer.Sending? && s' == s.(writer := Stopped(Failed), unsent := InHand(s.writer))
    case WriteClose(written) =>
      s.writer == Closing &&
      s' == s.(writer := Stopped(SaidGoodbye), wire := if written then s.wire + [Close] else s.wire)
    case _ => false
  }

  /** The connection task. */
  predicate TaskStep(s: State, s': State, a: Action) {
    match a
    case TaskSeesWriter =>
      && s.writer.Stopped?
      && (if s.task == Selecting then s' == s.(task := AwaitingReader(s.writer.why != SaidGoodbye))
          else s.task == AwaitingWriter && s' == s.(task := TearingDown))
    case TaskSeesReader =>
      && s.reader.Ended?
      && (if s.task == Selecting then
            (if s.reader.how == ClientClose then s' == MakeReady(s, Signalled).(task := AwaitingWriter)
             else s' == s.(task := TearingDown))
          else
            s.task.AwaitingReader? &&
            s' == s.(task := if s.reader.how == ClientClose && s.task.sink then Answering else TearingDown))
    case TaskGivesUp => (s.task.AwaitingReader? || s.task == AwaitingWriter) && s' == s.(task := TearingDown)
    case TaskAnswers(written) =>
      s.task == Answering && s' == s.(task := TearingDown, wire := if written then s.wire + [Close] else s.wire)
    case TaskFinishes =>
      && s.task == TearingDown
      && s' == (if IsReady(s) then s else MakeReady(s, Dropped)).(task := Finished, registered := false)
    case _ => false
  }

  /** A step of the writer. */
  predicate ByWriter(a: Action) {
    a.Look? || a.SkipUnserializable? || a.Wake? || a.SpuriousWake? || a.Write? || a.WriteFails? || a.WriteClose?
  }

  predicate ByTask(a: Action) {
    a.TaskSeesWriter? || a.TaskSeesReader? || a.TaskGivesUp? || a.TaskAnswers? || a.TaskFinishes?
  }

  /** One atomic step of some task. */
  predicate Step(s: State, s': State, a: Action) {
    if ByWriter(a) then WriterStep(s, s', a) else if ByTask(a) then TaskStep(s, s', a) else FeedStep(s, s', a)
  }

  const NO_TALLY := Tally(0, false, 0, 0)
  const START :=
    State([], [], true, Pending, Reading, LookControl, Selecting, 0, [], [], [], [], [], [], [], 0, NO_TALLY,
          NO_TALLY)

  predicate Init(s: State) {
    s == START
  }

  ghost predicate Next(s: State, s': State) {
    exists a :: Step(s, s', a)
  }

  ghost predicate IsPath(path: seq<State>) {
    |path| > 0 && forall n :: 0 <= n < |path| - 1 ==> Next(path[n], path[n + 1])
  }

  ghost predicate IsRun(run: seq<State>) {
    IsPath(run) && Init(run[0])
  }

  // ---------- Invariants ----------

  /** The control frames on the wire, in order. */
  function ControlsOn(wire: seq<Frame>): seq<string> {
    if wire == [] then []
    else
      var last := wire[|wire| - 1];
      ControlsOn(wire[..|wire| - 1]) + (if last.Control? then [last.text] else [])
  }

  lemma ControlsExtend(wire: seq<Frame>, f: Frame)
    ensures ControlsOn(wire + [f]) == ControlsOn(wire) + (if f.Control? then [f.text] else [])
  {
    assert (wire + [f])[..|wire|] == wire;
  }

  /** Written, in hand, left in hand by a failed write, queued, refused: every control frame
      produced is in one of these, in order. */
  ghost predicate ControlInOrder(s: State) {
    && ControlsOn(s.wire) + InHand(s.writer) + s.unsent + s.control + s.refused == s.produced
    && (!s.writer.Stopped? ==> s.unsent == [] && s.refused == [])
  }

  lemma WriterKeepsControlInOrder(s: State, s': State, a: Action)
    requires ControlInOrder(s) && ProtocolOk(s) && WriterStep(s, s', a)
    ensures ControlInOrder(s')
  {
    hide ControlsOn, LookStep;
    match a
    case Look => LookKeepsControlInOrder(s, s');
    case Write(elapsedMs) =>
      ControlsExtend(s.wire, s.writer.frame);
      assert ControlsOn(s'.wire) == ControlsOn(s.wire) + InHand(s.writer);
    case WriteClose(written) => ControlsExtend(s.wire, Close);
    case _ =>
  }

  /** All the connection task does to the frames is to add a Close to the wire. */
  lemma TaskWritesOnlyClose(s: State, s': State, a: Action)
    requires TaskStep(s, s', a)
    ensures s'.wire == s.wire || s'.wire == s.wire + [Close]
    ensures s'.writer == s.writer && s'.unsent == s.unsent && s'.control == s.control && s'.refused == s.refused
    ensures s'.produced == s.produced && s'.taken == s.taken && s'.data == s.data && s'.enqueued == s.enqueued
  {
  }

  lemma TaskKeepsControlInOrder(s: State, s': State, a: Action)
    requires ControlInOrder(s) && TaskStep(s, s', a)
    ensures ControlInOrder(s')
  {
    hide ControlsOn, TaskStep;
    TaskWritesOnlyClose(s, s', a);
    ControlsExtend(s.wire, Close);
  }

  lemma FeedKeepsControlInOrder(s: State, s': State, a: Action)
    requires ControlInOrder(s) && FeedStep(s, s', a)
    ensures ControlInOrder(s')
  {
    hide ControlsOn;
    if a.Produce? {
      ProduceKeepsControlInOrder(s, s', a.text);
    }
  }

  lemma StepKeepsControlInOrder(s: State, s': State, a: Action)
    requires ControlInOrder(s) && ProtocolOk(s) && Step(s, s', a)
    ensures ControlInOrder(s')
  {
    hide ControlInOrder, ProtocolOk, WriterStep, TaskStep, FeedStep;
    if ByWriter(a) {
      WriterKeepsControlInOrder(s, s', a);
    } else if ByTask(a) {
      TaskKeepsControlInOrder(s, s', a);
    } else {
      FeedKeepsControlInOrder(s, s', a);
    }
  }

  lemma ProduceKeepsControlInOrder(s: State, s': State, text: string)
    requires ControlInOrder(s) && FeedStep(s, s', Produce(text))
    ensures ControlInOrder(s')
  {
    hide ControlsOn;
    var front := ControlsOn(s.wire) + InHand(s.writer) + s.unsent;
    if !s.writer.Stopped? {
      assert front + (s.control + [text]) + [] == front + s.control + [] + [text];
    } else {
      assert front + s.control + (s.refused + [text]) == front + s.control + s.refused + [text];
    }
  }

  lemma LookKeepsControlInOrder(s: State, s': State)
    requires ControlInOrder(s) && LookStep(s, s')
    ensures ControlInOrder(s')
  {
    hide ControlsOn;
    if s.writer == LookControl && s.control != [] {
      assert s.control == InHand(s'.writer) + s'.control;
    }
  }

  /** The data frames on the wire, in order. */
  function DataOn(wire: seq<Frame>): seq<nat> {
    if wire == [] then []
    else
      var last := wire[|wire| - 1];
      DataOn(wire[..|wire| - 1]) + (if last.Data? then [last.event] else [])
  }

  lemma DataExtends(wire: seq<Frame>, f: Frame)
    ensures DataOn(wire + [f]) == DataOn(wire) + (if f.Data? then [f.event] else [])
  {
    assert (wire + [f])[..|wire|] == wire;
  }

  function Events(taken: seq<Taken>): (events: seq<nat>)
    ensures |events| == |taken| && forall i :: 0 <= i < |taken| ==> events[i] == taken[i].event
  {
    seq(|taken|, i requires 0 <= i < |taken| => taken[i].event)
  }

  /** The events taken to be sent, in order. */
  function ToSend(taken: seq<Taken>): seq<nat> {
    if taken == [] then []
    else
      var last := taken[|taken| - 1];
      ToSend(taken[..|taken| - 1]) + (if last.skipped then [] else [last.event])
  }

  lemma ToSendExtends(taken: seq<Taken>, x: Taken)
    ensures ToSend(taken + [x]) == ToSend(taken) + (if x.skipped then [] else [x.event])
  {
    assert (taken + [x])[..|taken|] == taken;
  }

  function DataInHand(w: Writer): seq<nat> {
    if w.Sending? && w.frame.Data? then [w.frame.event] else []
  }

  /** Events are taken in the order they were queued, and those to be sent go out in that
      order, but for the one whose write failed. */
  ghost predicate DataInOrder(s: State) {
    && Events(s.taken) + s.data == s.enqueued
    && (s.writer != Stopped(Failed) ==> DataOn(s.wire) + DataInHand(s.writer) == ToSend(s.taken))
    && (s.writer == Stopped(Failed) && s.unsent != [] ==> DataOn(s.wire) == ToSend(s.taken))
    && (s.writer == Stopped(Failed) && s.unsent == [] ==>
          ToSend(s.taken) != [] && DataOn(s.wire) == ToSend(s.taken)[..|ToSend(s.taken)| - 1])
  }

  lemma LookKeepsDataInOrder(s: State, s': State, skip: bool)
    requires DataInOrder(s) && s.writer == LookData && s.data != [] && s' == AfterTaking(s, skip)
    ensures DataInOrder(s')
  {
    hide DataOn, ToSend;
    ToSendExtends(s.taken, Taken(s.data[0], skip));
    assert s.data == [s.data[0]] + s.data[1..];
    assert Events(s'.taken) == Events(s.taken) + [s.data[0]];
  }

  lemma WriterKeepsDataInOrder(s: State, s': State, a: Action)
    requires DataInOrder(s) && ProtocolOk(s) && LateOk(s) && WriterStep(s, s', a)
    ensures DataInOrder(s')
  {
    hide DataOn, ToSend, Events;
    match a
    case Look =>
      if s.writer == LookData && s.data != [] {
        LookKeepsDataInOrder(s, s', false);
      }
    case SkipUnserializable => LookKeepsDataInOrder(s, s', true);
    case Write(elapsedMs) => DataExtends(s.wire, s.writer.frame);
    case WriteClose(written) => DataExtends(s.wire, Close);
    case _ =>
  }

  lemma TaskKeepsDataInOrder(s: State, s': State, a: Action)
    requires DataInOrder(s) && TaskStep(s, s', a)
    ensures DataInOrder(s')
  {
    hide DataOn, ToSend, Events, TaskStep;
    TaskWritesOnlyClose(s, s', a);
    DataExtends(s.wire, Close);
  }

  lemma FeedKeepsDataInOrder(s: State, s': State, a: Action)
    requires DataInOrder(s) && FeedStep(s, s', a)
    ensures DataInOrder(s')
  {
    hide DataOn, ToSend, Events;
    if a.Enqueue? {
      assert Events(s.taken) + (s.data + [a.event]) == Events(s.taken) + s.data + [a.event];
    }
  }

  lemma StepKeepsDataInOrder(s: State, s': State, a: Action)
    requires DataInOrder(s) && ProtocolOk(s) && LateOk(s) && Step(s, s', a)
    ensures DataInOrder(s')
  {
    hide DataInOrder, ProtocolOk, LateOk, WriterStep, TaskStep, FeedStep;
    if ByWriter(a) {
      WriterKeepsDataInOrder(s, s', a);
    } else if ByTask(a) {
      TaskKeepsDataInOrder(s, s', a);
    } else {
      FeedKeepsDataInOrder(s, s', a);
    }
  }

  /** What the goodbye and the end of the reader mean to the others. */
  predicate ProtocolOk(s: State) {
    && (IsReady(s) ==> s.reader.Ended? || s.writer.Stopped?)
    && (IsReady(s) ==> s.task == AwaitingWriter || s.task == TearingDown || s.task == Finished)
    && (s.task == AwaitingWriter || s.task == TearingDown ==> s.reader.Ended? || s.writer.Stopped?)
    && (s.task == Finished ==> IsReady(s))
    && (s.task.AwaitingReader? ==> s.writer.Stopped? && s.task.sink == (s.writer.why != SaidGoodbye))
    && (s.task == Answering ==> s.writer.Stopped? && s.writer.why != SaidGoodbye)
    && (s.writer == Closing || s.writer == Stopped(SaidGoodbye) ==> IsReady(s) && s.reader.Ended?)
    && (s.writer.Sending? ==> s.writer.frame != Close)
  }

  /** After a look at an empty control queue, what is queued is what came since; and a
      writer that said goodbye left nothing else behind. */
  predicate LateOk(s: State) {
    && (s.writer == LookGoodbye || s.writer == LookData || s.writer == Parked || s.writer == Closing ==>
          |s.control| == s.late)
    && (s.writer == Stopped(SaidGoodbye) ==> |s.control| == s.late && s.unsent == [] && s.refused == [])
    && (!s.writer.Stopped? ==> s.unsent == [] && s.refused == [])
  }

  lemma WriterKeepsProtocol(s: State, s': State, a: Action)
    requires ProtocolOk(s) && LateOk(s) && WriterStep(s, s', a)
    ensures ProtocolOk(s') && LateOk(s')
  {
  }

  lemma TaskKeepsProtocol(s: State, s': State, a: Action)
    requires ProtocolOk(s) && LateOk(s) && TaskStep(s, s', a)
    ensures ProtocolOk(s') && LateOk(s')
  {
  }

  lemma FeedKeepsProtocol(s: State, s': State, a: Action)
    requires ProtocolOk(s) && LateOk(s) && FeedStep(s, s', a)
    ensures ProtocolOk(s') && LateOk(s')
  {
  }

  lemma StepKeepsProtocol(s: State, s': State, a: Action)
    requires ProtocolOk(s) && LateOk(s) && Step(s, s', a)
    ensures ProtocolOk(s') && LateOk(s')
  {
    hide LateOk, ProtocolOk, WriterStep, TaskStep, FeedStep;
    if ByWriter(a) {
      WriterKeepsProtocol(s, s', a);
    } else if ByTask(a) {
      TaskKeepsProtocol(s, s', a);
    } else {
      FeedKeepsProtocol(s, s', a);
    }
  }

  /** The closing frame, if written, is the last frame and the only one of its kind. */
  ghost predicate ClosesOnce(s: State) {
    && (forall i :: 0 <= i < |s.wire| - 1 ==> s.wire[i] != Close)
    && (s.wire != [] && s.wire[|s.wire| - 1] == Close ==>
          && s.writer.Stopped?
          && (s.writer.why != SaidGoodbye ==> s.task == TearingDown || s.task == Finished))
  }

  lemma WriterKeepsClosesOnce(s: State, s': State, a: Action)
    requires ProtocolOk(s) && ClosesOnce(s) && WriterStep(s, s', a)
    ensures ClosesOnce(s')
  {
    if s'.wire != s.wire {
      assert forall i :: 0 <= i < |s.wire| ==> s.wire[i] != Close;
    }
  }

  lemma TaskKeepsClosesOnce(s: State, s': State, a: Action)
    requires ProtocolOk(s) && ClosesOnce(s) && TaskStep(s, s', a)
    ensures ClosesOnce(s')
  {
    if s'.wire != s.wire {
      assert forall i :: 0 <= i < |s.wire| ==> s.wire[i] != Close;
    }
  }

  lemma FeedKeepsClosesOnce(s: State, s': State, a: Action)
    requires ProtocolOk(s) && ClosesOnce(s) && FeedStep(s, s', a)
    ensures ClosesOnce(s')
  {
  }

  lemma StepKeepsClosesOnce(s: State, s': State, a: Action)
    requires ProtocolOk(s) && ClosesOnce(s) && Step(s, s', a)
    ensures ClosesOnce(s')
  {
    hide ProtocolOk, ClosesOnce, WriterStep, TaskStep, FeedStep;
    if ByWriter(a) {
      WriterKeepsClosesOnce(s, s', a);
    } else if ByTask(a) {
      TaskKeepsClosesOnce(s, s', a);
    } else {
      FeedKeepsClosesOnce(s, s', a);
    }
  }

  function LooksAtData(s: State): nat {
    if s.writer == LookData then 1 else 0
  }

  function YetToClose(s: State): nat {
    if s.writer == Closing || s.writer == Stopped(SaidGoodbye) then 0 else 1
  }

  /** Every turn since took a control frame queued then, a data frame, or is the last. */
  predicate Accounted(s: State, t: Tally) {
    t.turns + |s.control| + YetToClose(s) == t.backlog + t.dataTurns + 1
  }

  predicate CountedSinceReady(s: State) {
    IsReady(s) ==>
      && Accounted(s, s.sinceReady)
      && s.sinceReady.dataTurns + LooksAtData(s) <= if s.sinceReady.looking then 1 else 0
  }

  predicate CountedSinceEnd(s: State) {
    s.reader.Ended? ==> Accounted(s, s.sinceEnd)
  }

  lemma WriterKeepsCountSinceReady(s: State, s': State, a: Action)
    requires ProtocolOk(s) && CountedSinceReady(s) && WriterStep(s, s', a)
    ensures CountedSinceReady(s')
  {
  }

  lemma TaskKeepsCountSinceReady(s: State, s': State, a: Action)
    requires ProtocolOk(s) && CountedSinceReady(s) && TaskStep(s, s', a)
    ensures CountedSinceReady(s')
  {
  }

  lemma FeedKeepsCountSinceReady(s: State, s': State, a: Action)
    requires ProtocolOk(s) && CountedSinceReady(s) && FeedStep(s, s', a)
    ensures CountedSinceReady(s')
  {
  }

  lemma StepKeepsCountSinceReady(s: State, s': State, a: Action)
    requires ProtocolOk(s) && CountedSinceReady(s) && Step(s, s', a)
    ensures CountedSinceReady(s')
  {
    hide CountedSinceReady, ProtocolOk, WriterStep, TaskStep, FeedStep;
    if ByWriter(a) {
      WriterKeepsCountSinceReady(s, s', a);
    } else if ByTask(a) {
      TaskKeepsCountSinceReady(s, s', a);
    } else {
      FeedKeepsCountSinceReady(s, s', a);
    }
  }

  lemma WriterKeepsCountSinceEnd(s: State, s': State, a: Action)
    requires ProtocolOk(s) && CountedSinceEnd(s) && WriterStep(s, s', a)
    ensures CountedSinceEnd(s')
  {
  }

  lemma TaskKeepsCountSinceEnd(s: State, s': State, a: Action)
    requires ProtocolOk(s) && CountedSinceEnd(s) && TaskStep(s, s', a)
    ensures CountedSinceEnd(s')
  {
  }

  lemma FeedKeepsCountSinceEnd(s: State, s': State, a: Action)
    requires ProtocolOk(s) && CountedSinceEnd(s) && FeedStep(s, s', a)
    ensures CountedSinceEnd(s')
  {
  }

  lemma StepKeepsCountSinceEnd(s: State, s': State, a: Action)
    requires ProtocolOk(s) && CountedSinceEnd(s) && Step(s, s', a)
    ensures CountedSinceEnd(s')
  {
    hide CountedSinceEnd, ProtocolOk, WriterStep, TaskStep, FeedStep;
    if ByWriter(a) {
      WriterKeepsCountSinceEnd(s, s', a);
    } else if ByTask(a) {
      TaskKeepsCountSinceEnd(s, s', a);
    } else {
      FeedKeepsCountSinceEnd(s, s', a);
    }
  }

  /** The length of the run of slow frames at the end. */
  function TrailingSlow(pace: seq<bool>): (n: nat)
    ensures n <= |pace| && (n < |pace| ==> !pace[|pace| - n - 1])
    ensures forall i :: |pace| - n <= i < |pace| ==> pace[i]
  {
    if pace == [] || !pace[|pace| - 1] then 0 else TrailingSlow(pace[..|pace| - 1]) + 1
  }

  ghost predicate PaceOk(s: State) {
    && s.slowCount == TrailingSlow(s.pace)
    && (forall k :: 0 <= k < |s.pace| ==> TrailingSlow(s.pace[..k]) <= SLOW_LIMIT)
    && (s.writer == Stopped(SlowClient) <==> s.slowCount > SLOW_LIMIT)
  }

  lemma OtherWriterStepsKeepPace(s: State, s': State, a: Action)
    requires WriterStep(s, s', a) && !a.Write?
    ensures s'.pace == s.pace && s'.slowCount == s.slowCount
    ensures s'.writer == Stopped(SlowClient) <==> s.writer == Stopped(SlowClient)
  {
  }

  lemma TaskKeepsPace(s: State, s': State, a: Action)
    requires TaskStep(s, s', a) && !a.Write?
    ensures s'.pace == s.pace && s'.slowCount == s.slowCount
    ensures s'.writer == Stopped(SlowClient) <==> s.writer == Stopped(SlowClient)
  {
  }

  lemma FeedKeepsPace(s: State, s': State, a: Action)
    requires FeedStep(s, s', a) && !a.Write?
    ensures s'.pace == s.pace && s'.slowCount == s.slowCount
    ensures s'.writer == Stopped(SlowClient) <==> s.writer == Stopped(SlowClient)
  {
  }

  lemma OnlyWritesSetThePace(s: State, s': State, a: Action)
    requires Step(s, s', a) && !a.Write?
    ensures s'.pace == s.pace && s'.slowCount == s.slowCount
    ensures s'.writer == Stopped(SlowClient) <==> s.writer == Stopped(SlowClient)
  {
    hide WriterStep, TaskStep, FeedStep;
    if ByWriter(a) {
      OtherWriterStepsKeepPace(s, s', a);
    } else if ByTask(a) {
      TaskKeepsPace(s, s', a);
    } else {
      FeedKeepsPace(s, s', a);
    }
  }

  lemma StepKeepsPace(s: State, s': State, a: Action)
    requires PaceOk(s) && Step(s, s', a)
    ensures PaceOk(s')
  {
    hide TrailingSlow, LookStep, TaskStep, FeedStep, AfterTaking;
    if !a.Write? {
      OnlyWritesSetThePace(s, s', a);
    } else {
      PaceExtends(s.pace, a.elapsedMs > SLOW_MS);
      assert s'.pace[..|s.pace|] == s.pace;
      forall k | 0 <= k < |s'.pace| ensures TrailingSlow(s'.pace[..k]) <= SLOW_LIMIT {
        if k < |s.pace| {
          assert s'.pace[..k] == s.pace[..k];
        }
      }
    }
  }

  lemma PaceExtends(pace: seq<bool>, slow: bool)
    ensures TrailingSlow(pace + [slow]) == if slow then TrailingSlow(pace) + 1 else 0
  {
    assert (pace + [slow])[..|pace|] == pace;
  }

  ghost predicate Inv(s: State) {
    ControlInOrder(s) && DataInOrder(s) && ProtocolOk(s) && LateOk(s) && ClosesOnce(s) && CountedSinceReady(s)
    && CountedSinceEnd(s) && PaceOk(s)
  }

  lemma StepKeepsInv(s: State, s': State, a: Action)
    requires Inv(s) && Step(s, s', a)
    ensures Inv(s')
  {
    hide Step, ControlInOrder, DataInOrder, ProtocolOk, LateOk, ClosesOnce, CountedSinceReady, CountedSinceEnd, PaceOk;
    StepKeepsControlInOrder(s, s', a);
    StepKeepsDataInOrder(s, s', a);
    StepKeepsProtocol(s, s', a);
    StepKeepsClosesOnce(s, s', a);
    StepKeepsCountSinceReady(s, s', a);
    StepKeepsCountSinceEnd(s, s', a);
    StepKeepsPace(s, s', a);
  }

  lemma {:induction false} RunKeepsInv(run: seq<State>, n: nat)
    requires IsRun(run) && n < |run|
    ensures Inv(run[n])
  {
    if n > 0 {
      RunKeepsInv(run, n - 1);
      assert Next(run[n - 1], run[n - 1 + 1]);
      var a :| Step(run[n - 1], run[n], a);
      StepKeepsInv(run[n - 1], run[n], a);
    }
  }

  // ---------- All runs ----------

  /** In every interleaving control frames go out in the order they were produced, none is
      skipped, and each that is not written is accounted for. */
  lemma ControlFramesGoOutInOrder(run: seq<State>, n: nat)
    requires IsRun(run) && n < |run|
    ensures var s := run[n];
            && ControlsOn(s.wire) + InHand(s.writer) + s.unsent + s.control + s.refused == s.produced
            && (!s.writer.Stopped? ==> s.unsent == [] && s.refused == [])
  {
    RunKeepsInv(run, n);
  }

  /** In every interleaving events are taken in the order they were queued, and those that
      can be serialized go out in that order, none skipped and none twice, but for the one
      in hand and the one whose write failed. */
  lemma DataFramesGoOutInOrder(run: seq<State>, n: nat)
    requires IsRun(run) && n < |run|
    ensures var s := run[n];
            && Events(s.taken) + s.data == s.enqueued
            && (s.writer != Stopped(Failed) ==> DataOn(s.wire) + DataInHand(s.writer) == ToSend(s.taken))
            && (s.writer == Stopped(Failed) ==>
                  exists lost: seq<nat> :: |lost| <= 1 && DataOn(s.wire) + lost == ToSend(s.taken))
  {
    RunKeepsInv(run, n);
    var s := run[n];
    if s.writer == Stopped(Failed) {
      var sent, all := DataOn(s.wire), ToSend(s.taken);
      assert sent + [] == sent;
      assert all != [] && sent == all[..|all| - 1] ==> sent + [all[|all| - 1]] == all;
    }
  }

  /** Every control frame produced is on the wire. */
  predicate AllControlsOut(s: State) {
    ControlsOn(s.wire) == s.produced
  }

  /** In every interleaving, when the writer is about to answer the goodbye every control
      frame is on the wire exactly when none was produced since its last look at the
      control queue; the ones left behind are those produced since. */
  lemma GoodbyeLeavesOnlyLateFrames(run: seq<State>, n: nat)
    requires IsRun(run) && n < |run| && run[n].writer == Closing
    ensures AllControlsOut(run[n]) <==> run[n].late == 0
    ensures |run[n].control| == run[n].late && ControlsOn(run[n].wire) + run[n].control == run[n].produced
  {
    RunKeepsInv(run, n);
  }

  /** In every interleaving, once a Close frame is on the wire, whoever wrote it, no control
      frame was overtaken: exactly when, if the writer said goodbye, none was produced since
      its last look at the control queue; and, if the connection task answered for a writer
      that had stopped, the writer stopped with no control frame in hand or queued and none
      was produced after. */
  lemma CloseOvertakesExactly(run: seq<State>, n: nat)
    requires IsRun(run) && n < |run| && Close in run[n].wire
    ensures run[n].writer.Stopped?
    ensures AllControlsOut(run[n]) <==>
            if run[n].writer.why == SaidGoodbye then run[n].late == 0
            else run[n].unsent == [] && run[n].control == [] && run[n].refused == []
  {
    RunKeepsInv(run, n);
    var s := run[n];
    assert s.wire[|s.wire| - 1] == Close;
    assert |s.produced| == |ControlsOn(s.wire)| + |s.unsent| + |s.control| + |s.refused|;
  }

  /** A look at the control queue after the reader has ended: nothing can be late. */
  predicate LookedAfterReader(before: State, after: State) {
    before.reader.Ended? && before.writer == LookControl && after.writer == LookGoodbye && LookStep(before, after)
  }

  lemma WriterProducesNothing(s: State, s': State, a: Action)
    requires s.reader.Ended? && WriterStep(s, s', a)
    ensures s'.reader.Ended? && s'.late <= s.late && s'.produced == s.produced
  {
  }

  lemma TaskProducesNothing(s: State, s': State, a: Action)
    requires s.reader.Ended? && TaskStep(s, s', a)
    ensures s'.reader.Ended? && s'.late <= s.late && s'.produced == s.produced
  {
  }

  lemma FeedEndsWithReader(s: State, s': State, a: Action)
    requires s.reader.Ended? && FeedStep(s, s', a)
    ensures s'.reader.Ended? && s'.late <= s.late && s'.produced == s.produced
  {
  }

  lemma NothingProducedAfterReader(s: State, s': State, a: Action)
    requires s.reader.Ended? && Step(s, s', a)
    ensures s'.reader.Ended? && s'.late <= s.late && s'.produced == s.produced
  {
    hide WriterStep, TaskStep, FeedStep;
    if ByWriter(a) {
      WriterProducesNothing(s, s', a);
    } else if ByTask(a) {
      TaskProducesNothing(s, s', a);
    } else {
      FeedEndsWithReader(s, s', a);
    }
  }

  predicate Settled(s: State) {
    s.reader.Ended? && s.late == 0
  }

  lemma StepKeepsSettled(s: State, s': State)
    requires Settled(s) && Next(s, s')
    ensures Settled(s')
  {
    var a :| Step(s, s', a);
    NothingProducedAfterReader(s, s', a);
  }

  /** When the writer's last empty look at the control queue came after the reader's end,
      nothing is queued at the closing frame: the frame that explains a close precedes it. */
  lemma {:induction false} NothingLateAfterReader(run: seq<State>, m: nat, n: nat)
    requires IsRun(run) && m < n < |run| && LookedAfterReader(run[m], run[m + 1])
    ensures Settled(run[n])
    ensures run[n].writer == Closing ==> AllControlsOut(run[n])
  {
    hide Step, ControlsOn, Init, LookStep;
    if n > m + 1 {
      NothingLateAfterReader(run, m, n - 1);
      assert Next(run[n - 1], run[n - 1 + 1]);
      StepKeepsSettled(run[n - 1], run[n]);
    } else {
      LookSettles(run[m], run[m + 1]);
    }
    if run[n].writer == Closing {
      GoodbyeLeavesOnlyLateFrames(run, n);
    }
  }

  lemma LookSettles(s: State, s': State)
    requires LookedAfterReader(s, s')
    ensures Settled(s')
  {
  }

  /** In every interleaving at most one Close frame is written, by the writer or by the
      connection task, and nothing follows it. */
  lemma AtMostOneClose(run: seq<State>, n: nat, i: nat, j: nat)
    requires IsRun(run) && n < |run| && i < j < |run[n].wire|
    ensures run[n].wire[i] != Close
  {
    RunKeepsInv(run, n);
  }

  /** In every interleaving, from the moment the goodbye is ready the writer's turns are one
      per control frame it has taken of those queued then, at most one for data, only if it
      was looking at the data queue then, and one for the closing frame. */
  lemma WriterStopsSoonAfterGoodbye(run: seq<State>, n: nat)
    requires IsRun(run) && n < |run| && IsReady(run[n])
    ensures var s, t := run[n], run[n].sinceReady;
            && t.turns + |s.control| + YetToClose(s) == t.backlog + t.dataTurns + 1
            && t.dataTurns <= (if t.looking then 1 else 0)
            && t.turns <= t.backlog + (if t.looking then 1 else 0) + 1
  {
    RunKeepsInv(run, n);
  }

  /** In every interleaving, from the reader's end the turns are one per control frame taken
      of those queued then, one per data frame, and one for the closing frame. */
  lemma TurnsSinceReaderEnd(run: seq<State>, n: nat)
    requires IsRun(run) && n < |run| && run[n].reader.Ended?
    ensures var s, t := run[n], run[n].sinceEnd;
            t.turns + |s.control| + YetToClose(s) == t.backlog + t.dataTurns + 1
  {
    RunKeepsInv(run, n);
  }

  /** How many more steps the writer can take once the goodbye is ready. */
  function StepsLeft(s: State): nat {
    5 * |s.control| +
    match s.writer
    case Stopped(_) => 0
    case Closing => 1
    case LookGoodbye => 2
    case LookControl => 3
    case LookData => 5
    case _ => 4
  }

  /** Once the goodbye is ready, every step of the writer brings its end nearer and no other
      step puts it off. */
  lemma WriterTerminates(s: State, s': State, a: Action)
    requires Inv(s) && IsReady(s) && !s.writer.Stopped? && Step(s, s', a)
    ensures IsReady(s')
    ensures if ByWriter(a) then StepsLeft(s') < StepsLeft(s) else StepsLeft(s') <= StepsLeft(s)
  {
    hide ControlInOrder, DataInOrder, ClosesOnce, CountedSinceReady, CountedSinceEnd, PaceOk;
  }

  /** The writer has a step to take that does not rest on a spurious wake-up. */
  ghost predicate CanMove(s: State) {
    exists a, s' :: ByWriter(a) && !a.SpuriousWake? && Step(s, s', a)
  }

  /** The writer rests exactly when it has stopped, or is parked with nothing queued and no
      goodbye; so once the goodbye is ready it is never stuck. */
  lemma WriterIsNeverStuck(s: State)
    ensures CanMove(s) <==> !s.writer.Stopped? &&
                            (s.writer == Parked ==> s.control != [] || s.data != [] || s.goodbye != Pending)
  {
    match s.writer
    case Stopped(_) =>
    case Parked =>
      if SomethingCame(s) {
        assert Step(s, s.(writer := LookControl), Wake);
      }
    case Sending(_) => assert Step(s, s.(writer := Stopped(Failed), unsent := InHand(s.writer)), WriteFails);
    case Closing => assert Step(s, s.(writer := Stopped(SaidGoodbye)), WriteClose(false));
    case LookControl =>
      var s' := if s.control != []
                then Turn(s, false).(control := s.control[1..], writer := Sending(Control(s.control[0])))
                else s.(writer := LookGoodbye, late := 0);
      assert Step(s, s', Look);
    case LookGoodbye =>
      assert Step(s, if IsReady(s) then Turn(s, false).(writer := Closing) else s.(writer := LookData), Look);
    case LookData =>
      var s' := if s.data != [] then AfterTaking(s, false) else s.(writer := Parked);
      assert Step(s, s', Look);
  }

  /** In every interleaving the writer gives up on a slow client exactly when eleven
      frames in a row were slow, and never later. */
  lemma SlowClientStopsAtEleven(run: seq<State>, n: nat)
    requires IsRun(run) && n < |run|
    ensures run[n].writer == Stopped(SlowClient) <==> TrailingSlow(run[n].pace) == 11
    ensures forall k :: 0 <= k < |run[n].pace| ==> TrailingSlow(run[n].pace[..k]) <= 10
    ensures TrailingSlow(run[n].pace) <= 11
  {
    RunKeepsInv(run, n);
    var pace := run[n].pace;
    if pace != [] {
      assert TrailingSlow(pace[..|pace| - 1]) <= SLOW_LIMIT;
    }
  }

  /** A frame is slow when its write took more than 100 milliseconds, and a write leaves the
      writer looking again unless it was the eleventh slow one in a row. */
  lemma SlowIsOverATenth(s: State, s': State, elapsedMs: nat)
    requires PaceOk(s) && Step(s, s', Write(elapsedMs))
    ensures s'.pace == s.pace + [elapsedMs > 100]
    ensures s'.writer == if TrailingSlow(s'.pace) == 11 then Stopped(SlowClient) else LookControl
  {
    hide TrailingSlow;
    PaceExtends(s.pace, elapsedMs > 100);
    assert s.pace[..|s.pace|] == s.pace;
  }

  /** The reader can hand over a control frame while it reads, as long as fewer than 64 are
      queued or the writer has stopped. */
  lemma ProduceWaitsForRoom(s: State, text: string)
    ensures (exists s' :: Step(s, s', Produce(text))) <==>
            s.reader == Reading && (s.writer.Stopped? || |s.control| < 64)
  {
    if s.reader == Reading {
      if s.writer.Stopped? {
        assert Step(s, s.(refused := s.refused + [text], produced := s.produced + [text]), Produce(text));
      } else if |s.control| < 64 {
        assert Step(s, s.(control := s.control + [text], produced := s.produced + [text], late := s.late + 1),
                    Produce(text));
      }
    }
  }

  /** The fan-out can hand over an event as long as the connection is registered, which can
      end at any moment. */
  lemma EnqueueNeedsRegistration(s: State, event: nat)
    ensures (exists s' :: Step(s, s', Enqueue(event))) <==> s.registered
    ensures exists s' :: Step(s, s', Unregister) && s' == s.(registered := false)
  {
    if s.registered {
      assert Step(s, AfterEnqueue(s, event), Enqueue(event));
    }
    assert Step(s, s.(registered := false), Unregister);
  }
}
