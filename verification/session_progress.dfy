/** Closing cannot get stuck: from every reachable state the session can finish closing by its own work. */
module SessionProgress {
  import opened Texts
  import opened Frames
  import opened Resources
  import opened Sessions
  import opened SessionClose
  import opened SessionSettlement
  import opened SessionLanes

  /** How far the read loop is from `Done`. */
  function DriverRank(d: Driver): nat {
    match d
    case Handling(_) => 9
    case Delivering(_, _) => 9
    case Selecting => 8
    case Leaving => 7
    case Reaping => 6
    case AwaitingWriter => 5
    case Finishing => 4
    case Draining => 3
    case Done => 0
  }

  function WriterRank(w: Writer): nat {
    match w
    case ControlNext => 9
    case ControlEmpty => 8
    case Picked(_) => 7
    case Writing(_) => 6
    case Failing(_) => 5
    case Polling => 5
    case Ending(_) => 4
    case SinkGone(_) => 3
    case Dropping => 2
    case Gone => 0
  }

  /** How far a handled message is from its end, when the session closes. */
  function TaskRank(pc: Pc): nat {
    match pc
    case Admitting => 8
    case TaskOwn => 7
    case Deciding => 6
    case Running => 5
    case Sending(Start) => 5
    case Sending(Checked) => 4
    case Sending(Own) => 3
    case Sending(Both) => 2
    case MustClose => 1
    case _ => 0
  }

  /** What the handlers still have to do. */
  function TasksLeft(ts: seq<Thread>): nat {
    if ts == [] then 0
    else TasksLeft(ts[..|ts| - 1]) + if ts[|ts| - 1].task.Handle? then TaskRank(ts[|ts| - 1].pc) else 0
  }

  lemma {:induction false} TasksUpdate(ts: seq<Thread>, i: nat, t: Thread)
    requires i < |ts| && ts[i].task.Handle? && t.task.Handle?
    ensures TasksLeft(ts[i := t]) + TaskRank(ts[i].pc) == TasksLeft(ts) + TaskRank(t.pc)
    decreases |ts|
  {
    hide TaskRank;
    var n := |ts| - 1;
    if i == n {
      assert ts[i := t][..n] == ts[..n];
    } else {
      TasksUpdate(ts[..n], i, t);
      assert ts[i := t][..n] == ts[..n][i := t];
    }
  }

  /** Nothing from outside: no new exchange, no frame received, no end of the stream, no `close` called by
      anyone else, and no deadline of an exchange. */
  predicate OwnWork(e: Event) {
    && !e.Send? && !e.StartBeat? && !e.Close? && !e.Expire?
    && !e.Receive? && !e.ReceiveOversized? && !e.ReceiveInvalid? && !e.StreamEnds?
  }

  /** Thread `i` moves on, and the read loop at most leaves its handling. */
  predicate Moves(s: State, s': State, i: nat) {
    && i < |s.threads| == |s'.threads| && s'.threads == s.threads[i := s'.threads[i]]
    && s.threads[i].task.Handle? && s'.threads[i].task.Handle?
    && TaskRank(s'.threads[i].pc) < TaskRank(s.threads[i].pc)
    && (s'.driver == s.driver || (s.driver == Handling(i) && s'.driver == Selecting))
  }

  lemma {:induction false} EnqueueMovesOn(c: Config, s: State, i: nat) returns (e: Event, s': State)
    requires i < |s.threads| && s.threads[i].task.Handle? && s.threads[i].pc.Sending?
    ensures SendStep(c, s, e, s') && OwnWork(e) && Moves(s, s', i)
  {
    hide Admits, FramePermit, FrameOf, Wire, HasRoom, Released, Taken, GivenBack, AfterTask;
    match s.threads[i].pc.stage {
      case Start => e, s' := CheckOpen(i), AfterCheckOpen(c, s, i);
      case Checked => e, s' := ReserveQueue(i), AfterReserveQueue(c, s, i);
      case Own => e, s' := ReserveQueueShared(i, false), AfterReserveQueueShared(s, i, false);
      case Both => e, s' := Push(i), AfterPush(c, s, i);
    }
  }

  lemma {:induction false} ReplyMoves(c: Config, s: State, i: nat) returns (e: Event, s': State)
    requires i < |s.threads| && s.threads[i].task.Handle? && (s.threads[i].pc.Sending? || s.threads[i].pc.MustClose?)
    ensures SendStep(c, s, e, s') && OwnWork(e) && Moves(s, s', i)
  {
    hide AfterTask;
    if s.threads[i].pc.MustClose? {
      e, s' := CloseAfterFailure(i), Unsent(s, i).(gate := Shut(s.gate));
    } else {
      e, s' := EnqueueMovesOn(c, s, i);
    }
  }

  lemma {:induction false} AdmitMovesOn(c: Config, s: State, i: nat) returns (e: Event, s': State)
    requires i < |s.threads| && s.threads[i].task.Handle?
    requires s.threads[i].pc.Admitting? || s.threads[i].pc.TaskOwn? || s.threads[i].pc.Deciding?
             || (s.threads[i].pc.Running? && s.driver.Reaping?)
    ensures HandleStep(c, s, e, s') && OwnWork(e) && Moves(s, s', i)
  {
    hide Admits, FramePermit, TaskPermit, Wire, Released, Taken, GivenBack, AfterTask;
    match s.threads[i].pc {
      case Admitting => e, s' := ReserveTask(i, []), AfterReserveTask(c, s, i, []);
      case TaskOwn => e, s' := ReserveTaskShared(i, false, []), AfterReserveTaskShared(s, i, false, []);
      case Deciding => e, s' := Spawn(i), SetPc(s, i, Running).(driver := Resumed(s.driver, i));
      case Running => e, s' := Abort(i), Unsent(s, i);
    }
  }

  lemma {:induction false} TaskMoves(c: Config, s: State, i: nat) returns (e: Event, s': State)
    requires CloseInv(s) && i < |s.threads| && s.threads[i].task.Handle? && !s.threads[i].pc.Finished?
    requires s.threads[i].pc.Running? ==> s.driver.Reaping?
    ensures Step(c, s, e, s') && OwnWork(e) && Moves(s, s', i)
  {
    hide SendStep, HandleStep, OwnWork, Moves, Phases, Tasks, Linked, UniqueIds;
    assert PcFits(s.threads[i]);
    if s.threads[i].pc.Sending? || s.threads[i].pc.MustClose? {
      e, s' := ReplyMoves(c, s, i);
    } else {
      e, s' := AdmitMovesOn(c, s, i);
    }
  }

  lemma {:induction false} LookMoves(s: State) returns (e: Event, s': State)
    requires s.out.writer.ControlNext?
    ensures WriteStep(s, e, s') && OwnWork(e)
    ensures s'.driver == s.driver && s'.threads == s.threads && WriterRank(s'.out.writer) < WriterRank(s.out.writer)
  {
    var out := s.out;
    if out.control == [] {
      e, s' := SeeControlEmpty, s.(out := out.(writer := ControlEmpty));
    } else {
      e, s' := PickControl, s.(out := out.(writer := Picked(out.control[0]), control := out.control[1..]),
                               log := s.log.(picked := s.log.picked + [out.control[0].frame]));
    }
  }

  lemma {:induction false} PickMoves(s: State) returns (e: Event, s': State)
    requires s.out.writer.ControlEmpty?
    ensures WriteStep(s, e, s') && OwnWork(e)
    ensures s'.driver == s.driver && s'.threads == s.threads && WriterRank(s'.out.writer) < WriterRank(s.out.writer)
  {
    hide Released, Wire;
    var out := s.out;
    if out.data == [] {
      e, s' := SeeNothing, s.(out := out.(writer := Polling));
    } else {
      e, s' := PickData, s.(out := out.(writer := Picked(out.data[0]), data := out.data[1..]),
                            log := s.log.(picked := s.log.picked + [out.data[0].frame]));
    }
  }

  /** The writer finishes the turn it is in. */
  lemma {:induction false} TurnMoves(s: State) returns (e: Event, s': State)
    requires s.out.writer.ControlEmpty? || s.out.writer.Picked? || s.out.writer.Failing?
    requires !s.gate.open
    ensures WriteStep(s, e, s') && OwnWork(e)
    ensures s'.driver == s.driver && s'.threads == s.threads && WriterRank(s'.out.writer) < WriterRank(s.out.writer)
  {
    hide Released, Wire;
    if s.out.writer.ControlEmpty? {
      e, s' := PickMoves(s);
    } else if s.out.writer.Picked? {
      e, s' := StartWrite, AfterStartWrite(s);
    } else {
      e := CloseAfterWrite;
      s' := s.(gate := Shut(s.gate), out := s.out.(writer := Ending(InFlight(s.out.writer))));
    }
  }

  /** The writer is aborted where it waits, or drops its sink and closes the queues. */
  lemma {:induction false} StopMoves(s: State) returns (e: Event, s': State)
    requires s.out.stop
    requires s.out.writer.Polling? || s.out.writer.Writing? || s.out.writer.Ending? || s.out.writer.SinkGone?
    ensures WindUpStep(s, e, s') && OwnWork(e)
    ensures s'.driver == s.driver && s'.threads == s.threads && WriterRank(s'.out.writer) < WriterRank(s.out.writer)
  {
    hide Released, Wire;
    var out := s.out;
    if out.writer.Polling? || out.writer.Writing? {
      e, s' := AbortWriter, s.(out := out.(writer := SinkGone(InFlight(out.writer)), sink := None),
                               log := SinkDropped(s.log, out.sink));
    } else if out.writer.Ending? {
      e, s' := DropSink, s.(out := out.(writer := SinkGone(out.writer.permit), sink := None),
                            log := SinkDropped(s.log, out.sink));
    } else {
      e, s' := CloseQueues, s.(out := out.(writer := Dropping),
                               ledger := if out.writer.permit.Some? then Released(s.ledger, out.writer.permit.value)
                                         else s.ledger);
    }
  }

  /** The writer, once told to stop, goes on to its end. */
  lemma {:induction false} WriterMoves(c: Config, s: State) returns (e: Event, s': State)
    requires CloseInv(s) && s.driver.AwaitingWriter? && !s.out.writer.Gone?
    ensures Step(c, s, e, s') && OwnWork(e)
    ensures s'.driver == s.driver && s'.threads == s.threads
    ensures WriterRank(s'.out.writer) < WriterRank(s.out.writer)
            || (WriterRank(s'.out.writer) == WriterRank(s.out.writer)
                && |s'.out.control| + |s'.out.data| < |s.out.control| + |s.out.data|)
  {
    hide Linked, Tasks, Typed, UniqueIds, CallStep, SendStep, HandleStep, ReadStep, CloseStep, WriteStep,
         WindUpStep, OwnWork;
    if s.out.writer.Dropping? {
      e, s' := QueueMoves(c, s);
    } else if s.out.writer.ControlNext? {
      e, s' := LookMoves(s);
    } else if s.out.writer.ControlEmpty? || s.out.writer.Picked? || s.out.writer.Failing? {
      e, s' := TurnMoves(s);
    } else {
      e, s' := StopMoves(s);
    }
  }

  lemma {:induction false} QueueMoves(c: Config, s: State) returns (e: Event, s': State)
    requires s.out.writer.Dropping?
    ensures WriterStep(s, e, s') && OwnWork(e)
    ensures s'.driver == s.driver && s'.threads == s.threads
    ensures s'.out.writer.Gone?
            || (s'.out.writer.Dropping? && |s'.out.control| + |s'.out.data| < |s.out.control| + |s.out.data|)
  {
    hide Released, Wire, WriteStep;
    var out := s.out;
    if out.control != [] {
      e, s' := DropControl, s.(out := out.(control := out.control[1..]),
                               ledger := Released(s.ledger, out.control[0].permit),
                               log := DroppedFrame(s.log, out.control[0].frame));
    } else if out.data != [] {
      e, s' := DropData, s.(out := out.(data := out.data[1..]), ledger := Released(s.ledger, out.data[0].permit),
                            log := DroppedFrame(s.log, out.data[0].frame));
    } else {
      e, s' := WriterEnds, s.(out := out.(writer := Gone));
    }
  }

  /** `finish_close` fails one more entry, or publishes. */
  lemma {:induction false} DrainMoves(s: State) returns (e: Event, s': State)
    requires s.driver.Draining?
    ensures CloseStep(s, e, s') && OwnWork(e) && s'.out == s.out && TasksLeft(s'.threads) == TasksLeft(s.threads)
    ensures s'.driver.Done? || (s'.driver.Draining? && |s'.book.draining| < |s.book.draining|)
  {
    hide Released, AllHandled, TasksLeft, Wire;
    if s.book.draining == map[] {
      e, s' := Publish, s.(gate := s.gate.(closed := true), driver := Done);
    } else {
      var id :| id in s.book.draining;
      e := FailPending(id);
      s' := s.(threads := Completed(s.threads, s.book.draining[id], Failed(SessionClosed)),
               book := s.book.(draining := s.book.draining - {id}), ledger := Released(s.ledger, REQUEST));
      CompletedTasksLeft(s.threads, s.book.draining[id], Failed(SessionClosed));
      assert s.book.draining == s'.book.draining[id := s.book.draining[id]];
    }
  }

  lemma {:induction false} ReadMoves(s: State) returns (e: Event, s': State)
    requires s.driver.Delivering? || (s.driver.Selecting? && (s.gate.closeAsked || s.gate.ended))
    ensures ReadStep(s, e, s') && OwnWork(e) && DriverRank(s'.driver) < DriverRank(s.driver)
  {
    hide Completed;
    match s.driver {
      case Selecting => e, s' := LeaveLoop, s.(driver := Leaving);
      case Delivering(i, outcome) =>
        e, s' := Deliver, s.(threads := Completed(s.threads, i, outcome), driver := Selecting);
    }
  }

  lemma {:induction false} LeavingMoves(s: State) returns (e: Event, s': State)
    requires s.driver.Leaving? || s.driver.Reaping? || s.driver.AwaitingWriter? || s.driver.Finishing?
    requires s.driver.Reaping? ==> AllHandled(s.threads)
    requires s.driver.AwaitingWriter? ==> s.out.writer.Gone?
    ensures CloseStep(s, e, s') && OwnWork(e) && DriverRank(s'.driver) < DriverRank(s.driver)
  {
    hide Released, AllHandled, Completed;
    match s.driver {
      case Leaving => e, s' := StopReading, s.(gate := Shut(s.gate), driver := Reaping);
      case Reaping => e, s' := Reaped, s.(driver := AwaitingWriter, out := s.out.(stop := true));
      case AwaitingWriter => e, s' := WriterJoined, s.(driver := Finishing);
      case Finishing =>
        e, s' := Drain, s.(gate := s.gate.(open := false), book := Book(map[], s.book.pending), driver := Draining);
    }
  }

  /** The steps of the read loop before that, when it waits for nobody. */
  lemma {:induction false} LoopMoves(s: State) returns (e: Event, s': State)
    requires !s.driver.Handling? && !s.driver.Draining? && !s.driver.Done?
    requires s.driver.Selecting? ==> s.gate.closeAsked || s.gate.ended
    requires s.driver.Reaping? ==> AllHandled(s.threads)
    requires s.driver.AwaitingWriter? ==> s.out.writer.Gone?
    ensures DriverStep(s, e, s') && OwnWork(e) && DriverRank(s'.driver) < DriverRank(s.driver)
  {
    hide ReadStep, CloseStep, OwnWork;
    if s.driver.Selecting? || s.driver.Delivering? {
      e, s' := ReadMoves(s);
    } else {
      e, s' := LeavingMoves(s);
    }
  }

  lemma {:induction false} CompletedTasksLeft(ts: seq<Thread>, i: nat, o: Outcome)
    ensures |Completed(ts, i, o)| == |ts| && TasksLeft(Completed(ts, i, o)) == TasksLeft(ts)
    decreases |ts|
  {
    if ts != [] {
      var n := |ts| - 1;
      CompletedTasksLeft(ts[..n], i, o);
      assert Completed(ts, i, o)[..n] == Completed(ts[..n], i, o);
    }
  }

  /** The session has been asked to close, or its stream has ended. */
  predicate Leavable(g: Gate) {
    !g.open || g.ended
  }

  function Unnotified(g: Gate): nat {
    if g.notifying then 1 else 0
  }

  /** Closer to the end, in this order: the read loop, the handlers, the writer, the queues, the entries
      still to be failed, the notification still to be stored. */
  predicate Nearer(s: State, s': State) {
    var d, d' := DriverRank(s.driver), DriverRank(s'.driver);
    var t, t' := TasksLeft(s.threads), TasksLeft(s'.threads);
    var w, w' := WriterRank(s.out.writer), WriterRank(s'.out.writer);
    var q, q' := |s.out.control| + |s.out.data|, |s'.out.control| + |s'.out.data|;
    var p, p' := |s.book.draining|, |s'.book.draining|;
    || d' < d
    || (d' == d && t' < t)
    || (d' == d && t' == t && w' < w)
    || (d' == d && t' == t && w' == w && q' < q)
    || (d' == d && t' == t && w' == w && q' == q && p' < p)
    || (d' == d && t' == t && w' == w && q' == q && p' == p && Unnotified(s'.gate) < Unnotified(s.gate))
  }

  lemma {:induction false} StepOf(c: Config, s: State, e: Event, s': State)
    requires DriverStep(s, e, s')
    ensures Step(c, s, e, s')
  {
  }

  /** `open` is cleared, but the read loop waits: the notification is stored already, or its sender has
      still to store it. It is never lost. */
  lemma {:induction false} NotificationKept(s: State)
    requires CloseInv(s) && !s.gate.open && !s.gate.closeAsked
    ensures s.gate.notifying
  {
  }

  /** One more step of closing, towards its end. */
  lemma {:induction false} ClosingMoves(c: Config, s: State) returns (e: Event, s': State)
    requires CloseInv(s) && !s.driver.Done? && Leavable(s.gate)
    ensures Step(c, s, e, s') && OwnWork(e) && Nearer(s, s')
  {
    hide Step, ReadStep, CloseStep, Typed, UniqueIds, Linked, Phases, OwnWork, WriterRank, TaskRank, TasksLeft;
    if s.driver.Handling? || (s.driver.Reaping? && !AllHandled(s.threads)) {
      var i := Unfinished(s);
      e, s' := TaskMoves(c, s, i);
      TasksUpdate(s.threads, i, s'.threads[i]);
    } else if s.driver.AwaitingWriter? && !s.out.writer.Gone? {
      e, s' := WriterMoves(c, s);
    } else if s.driver.Selecting? && !s.gate.closeAsked && !s.gate.ended {
      NotificationKept(s);
      e, s' := Notify, s.(gate := s.gate.(notifying := false, closeAsked := true));
      NotifyIsStep(c, s, s');
    } else if s.driver.Draining? {
      e, s' := DrainMoves(s);
      assert DriverStep(s, e, s');
      StepOf(c, s, e, s');
    } else {
      e, s' := LoopMoves(s);
      StepOf(c, s, e, s');
    }
  }

  lemma {:induction false} NotifyIsStep(c: Config, s: State, s': State)
    requires s.gate.notifying && s' == s.(gate := s.gate.(notifying := false, closeAsked := true))
    ensures Step(c, s, Notify, s') && OwnWork(Notify)
  {
    assert CloseStep(s, Notify, s');
  }

  /** The message that the read loop handles, or one whose task is not reaped yet. */
  lemma {:induction false} Unfinished(s: State) returns (i: nat)
    requires CloseInv(s) && (s.driver.Handling? || (s.driver.Reaping? && !AllHandled(s.threads)))
    ensures i < |s.threads| && s.threads[i].task.Handle? && !s.threads[i].pc.Finished?
    ensures s.threads[i].pc.Running? ==> s.driver.Reaping?
  {
    hide Typed, UniqueIds, Linked, Phases;
    if s.driver.Handling? {
      i := s.driver.thread;
    } else {
      i :| i < |s.threads| && s.threads[i].task.Handle? && !s.threads[i].pc.Finished?;
    }
  }

  /** Once a session has been asked to close, or its stream has ended, it closes by steps of its own alone:
      whatever is going on, no handler, write, queue or pending entry can keep `closed` from being
      published, and the request to close is not lost. */
  lemma {:induction false} CloseCompletes(c: Config, s: State) returns (run: seq<State>, events: seq<Event>)
    requires CloseInv(s) && Leavable(s.gate)
    ensures |run| == |events| + 1 && run[0] == s
    ensures forall k :: 0 <= k < |events| ==> StepAt(c, run, events, k) && OwnWork(events[k])
    ensures CloseInv(run[|events|]) && run[|events|].gate.closed
    decreases DriverRank(s.driver), TasksLeft(s.threads), WriterRank(s.out.writer), |s.out.control| + |s.out.data|,
              |s.book.draining|, Unnotified(s.gate)
  {
    hide Step, OwnWork, Typed, UniqueIds, Linked, Tasks, DriverRank, TasksLeft, WriterRank;
    if s.driver.Done? {
      return [s], [];
    }
    var e, s' := ClosingMoves(c, s);
    StepKeeps(c, s, e, s');
    GateMoves(c, s, e, s');
    var rest, tail := CloseCompletes(c, s');
    run, events := [s] + rest, [e] + tail;
    forall k | 0 <= k < |events| ensures StepAt(c, run, events, k) && OwnWork(events[k]) {
      if k > 0 {
        assert StepAt(c, rest, tail, k - 1);
      }
    }
  }

  /** And then each exchange of the session ends, without waiting for its deadline. */
  lemma {:induction false} ClosingEndsSends(c: Config, run: seq<State>, events: seq<Event>, k: nat, i: nat)
    returns (more: seq<State>, steps: seq<Event>)
    requires Run(c, run, events) && k < |run| && Leavable(run[k].gate)
    requires i < |run[k].threads| && run[k].threads[i].task.Call?
    ensures |more| == |steps| + 1 && more[0] == run[k]
    ensures forall m :: 0 <= m < |steps| ==> StepAt(c, more, steps, m) && OwnWork(steps[m])
    ensures var last := more[|steps|]; last.gate.closed && i < |last.threads| && last.threads[i].pc.Ended?
  {
    hide Step, Run, CloseInv;
    RunKeeps(c, run, events, k);
    var closing, first := CloseCompletes(c, run[k]);
    var last := closing[|first|];
    StillThere(c, closing, first, |first|, i);
    var ending, second := ExchangeEnds(c, last, i, false);
    more, steps := closing + ending[1..], first + second;
    assert forall m :: 0 <= m < |ending| ==> more[|first| + m] == ending[m];
    forall m | 0 <= m < |steps| ensures StepAt(c, more, steps, m) && OwnWork(steps[m]) {
      if m < |first| {
        assert StepAt(c, closing, first, m);
      } else {
        assert StepAt(c, ending, second, m - |first|);
      }
    }
  }

  /** In every state of every run, open or closed, each exchange can end by steps of its own and its
      deadline: it needs nothing from the peer, from another caller or from the closing of the session. */
  lemma {:induction false} EverySendCanEnd(c: Config, run: seq<State>, events: seq<Event>, k: nat, i: nat)
    returns (more: seq<State>, steps: seq<Event>)
    requires Run(c, run, events) && k < |run| && i < |run[k].threads| && run[k].threads[i].task.Call?
    ensures |more| == |steps| + 1 && more[0] == run[k] && |steps| <= 9 && OwnEvents(steps, i)
    ensures forall m :: 0 <= m < |steps| ==> StepAt(c, more, steps, m)
    ensures var last := more[|steps|]; i < |last.threads| && last.threads[i].pc.Ended?
  {
    hide Step, Run, CloseInv;
    RunKeeps(c, run, events, k);
    more, steps := ExchangeEnds(c, run[k], i, false);
  }

  lemma {:induction false} StillThere(c: Config, run: seq<State>, events: seq<Event>, k: nat, i: nat)
    requires |run| == |events| + 1 && k < |run| && CloseInv(run[0])
    requires forall m :: 0 <= m < |events| ==> StepAt(c, run, events, m)
    requires i < |run[0].threads| && run[0].threads[i].task.Call?
    ensures CloseInv(run[k]) && i < |run[k].threads| && run[k].threads[i].task.Call?
  {
    hide Step, CloseInv;
    if k > 0 {
      StillThere(c, run, events, k - 1, i);
      assert StepAt(c, run, events, k - 1);
      StepKeeps(c, run[k - 1], events[k - 1], run[k]);
      ThreadEvolves(c, run[k - 1], events[k - 1], run[k], i);
    }
  }

  // ----- whatever the writer does, it stops

  /** The steps the writer has left once it is told to stop. */
  function WriterWork(out: Output): nat {
    WriterRank(out.writer) + |out.control| + |out.data| + if out.sink.Some? then 1 else 0
  }

  lemma {:induction false} TurnShortens(s: State, e: Event, s': State)
    requires WriteStep(s, e, s') && s.out.stop && !s.gate.open
    ensures WriterWork(s'.out) < WriterWork(s.out) && s'.out.stop
  {
    hide Counts.Refund;
  }

  lemma {:induction false} WindUpShortens(s: State, e: Event, s': State)
    requires WindUpStep(s, e, s')
    ensures WriterWork(s'.out) < WriterWork(s.out) && s'.out.stop == s.out.stop
  {
    hide Counts.Refund;
  }

  function EverQueued(s: State): nat {
    |s.log.queuedData| + |s.log.queuedControl|
  }

  /** Any other step leaves the writer its work, except that a push adds one frame. */
  lemma {:induction false} OthersAddPushes(c: Config, s: State, e: Event, s': State)
    requires Step(c, s, e, s') && !WriterStep(s, e, s')
    ensures WriterWork(s'.out) - EverQueued(s') == WriterWork(s.out) - EverQueued(s)
    ensures s.out.stop ==> s'.out.stop
  {
    hide CallStep, SendStep, HandleStep, ReadStep, CloseStep, WriterStep, WriterRank;
    if CallStep(c, s, e, s') || HandleStep(c, s, e, s') {
      CallLeavesLanes(c, s, e, s');
      ThreadsLeaveStop(c, s, e, s');
    } else if SendStep(c, s, e, s') {
      ThreadsLeaveStop(c, s, e, s');
      if Pushes(c, s, e) {
        PushAppends(c, s, e, s');
      } else {
        SendLeavesLanes(c, s, e, s');
      }
    } else if ReadStep(s, e, s') {
      ReadLeavesLanes(s, e, s');
      DriverKeepsStop(s, e, s');
    } else {
      CloseLeavesLanes(s, e, s');
      DriverKeepsStop(s, e, s');
    }
  }

  lemma {:induction false} ThreadsLeaveStop(c: Config, s: State, e: Event, s': State)
    requires CallStep(c, s, e, s') || HandleStep(c, s, e, s') || SendStep(c, s, e, s')
    ensures s'.out.stop == s.out.stop
  {
    hide CallStep, SendStep, HandleStep;
    if SendStep(c, s, e, s') {
      SendLeavesStop(c, s, e, s');
    } else if CallStep(c, s, e, s') {
      CallLeavesStop(c, s, e, s');
    } else {
      HandleLeavesStop(c, s, e, s');
    }
  }

  lemma {:induction false} SendLeavesStop(c: Config, s: State, e: Event, s': State)
    requires SendStep(c, s, e, s')
    ensures s'.out.stop == s.out.stop
  {
    hide Admits, Released, Taken, GivenBack, AfterTask, FramePermit, FrameOf, Wire, HasRoom, GivingUp;
  }

  lemma {:induction false} CallLeavesStop(c: Config, s: State, e: Event, s': State)
    requires CallStep(c, s, e, s')
    ensures s'.out.stop == s.out.stop
  {
    hide Admits, Released, Taken, GivenBack;
  }

  lemma {:induction false} HandleLeavesStop(c: Config, s: State, e: Event, s': State)
    requires HandleStep(c, s, e, s')
    ensures s'.out.stop == s.out.stop
  {
    hide Admits, TaskPermit, Released, Taken, GivenBack, AfterTask;
  }

  lemma {:induction false} DriverKeepsStop(s: State, e: Event, s': State)
    requires DriverStep(s, e, s')
    ensures s.out.stop ==> s'.out.stop
  {
    hide Counts.Refund, WellFormed, AllHandled;
  }

  /** The steps of the writer from state `j` to state `k`. */
  ghost function WriterSteps(run: seq<State>, events: seq<Event>, j: nat, k: nat): nat
    requires j <= k < |run| && |run| == |events| + 1
  {
    if j == k then 0
    else WriterSteps(run, events, j, k - 1) + if WriterStep(run[k - 1], events[k - 1], run[k]) then 1 else 0
  }

  /** Once it is told to stop, the writer takes no more steps than its position, the frames queued, the
      buffered one and those still pushed allow: every order of its steps leads it to its end. */
  lemma {:induction false} WriterStops(c: Config, run: seq<State>, events: seq<Event>, j: nat, k: nat)
    requires Run(c, run, events) && j <= k < |run| && run[j].out.stop
    ensures run[k].out.stop
    ensures WriterSteps(run, events, j, k) + WriterWork(run[k].out)
            <= WriterWork(run[j].out) + (EverQueued(run[k]) - EverQueued(run[j]))
  {
    hide Step, WriteStep, WindUpStep, WriterWork, EverQueued, Linked, Tasks, Typed, UniqueIds;
    if j < k {
      var s, e, s' := run[k - 1], events[k - 1], run[k];
      WriterStops(c, run, events, j, k - 1);
      RunKeeps(c, run, events, k - 1);
      assert StepAt(c, run, events, k - 1);
      if WriteStep(s, e, s') {
        TurnShortens(s, e, s');
        WriterPushesNothing(s, e, s');
      } else if WindUpStep(s, e, s') {
        WindUpShortens(s, e, s');
        WriterPushesNothing(s, e, s');
      } else {
        OthersAddPushes(c, s, e, s');
      }
    }
  }

  lemma {:induction false} WriterPushesNothing(s: State, e: Event, s': State)
    requires WriterStep(s, e, s')
    ensures EverQueued(s') == EverQueued(s)
  {
    hide Counts.Refund;
  }
}
