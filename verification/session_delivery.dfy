/** That a session does let messages through: with room, the steps of a send, of the writer, of a handler and of
    an answer lead on from any state, and to exactly what they should. */
module SessionDelivery {
  import opened Texts
  import opened Frames
  import opened Resources
  import opened Sessions
  import opened SessionClose
  import opened SessionSettlement
  import SessionLanes
  import opened SessionPermits
  import opened SessionAdmission

  /** Steps that follow one another. */
  ghost predicate Path(c: Config, run: seq<State>, events: seq<Event>) {
    |run| == |events| + 1 && forall k :: 0 <= k < |events| ==> StepAt(c, run, events, k)
  }

  lemma {:induction false} PathOf(c: Config, s: State, e: Event, s': State)
    requires Step(c, s, e, s')
    ensures Path(c, [s, s'], [e])
  {
    hide Step;
    assert StepAt(c, [s, s'], [e], 0);
  }

  lemma {:induction false} Joined(c: Config, run: seq<State>, events: seq<Event>, more: seq<State>, steps: seq<Event>)
    requires Path(c, run, events) && Path(c, more, steps) && run[|events|] == more[0]
    ensures Path(c, run + more[1..], events + steps)
    ensures (run + more[1..])[0] == run[0] && (run + more[1..])[|events| + |steps|] == more[|steps|]
  {
    hide Step;
    var r, es := run + more[1..], events + steps;
    assert forall m :: 0 <= m < |more| ==> r[|events| + m] == more[m];
    forall k | 0 <= k < |es| ensures StepAt(c, r, es, k) {
      if k < |events| {
        assert StepAt(c, run, events, k);
      } else {
        assert StepAt(c, more, steps, k - |events|);
      }
    }
  }

  /** Thread `i` and the counters in use, and nothing else. */
  function Put(s: State, i: nat, t: Thread, usage: Counts): State
    requires i < |s.threads|
  {
    s.(threads := s.threads[i := t], ledger := s.ledger.(usage := usage))
  }

  // ----- a send

  /** What a send leaves behind once its message is queued: an entry, a request, and its frame with its permit at
      the end of the data queue. */
  function SentBy(s: State, i: nat): State
    requires i < |s.threads| && s.threads[i].task.Call?
  {
    var t, usage := s.threads[i], s.ledger.usage;
    var frame, size := Message(t.task.id, t.task.payload), MessageSize(t);
    s.(threads := s.threads[i := Thread(t.task, true, Waiting)],
       book := s.book.(pending := s.book.pending[t.task.id := i]),
       out := s.out.(data := s.out.data + [Item(frame, Permit(Data, size), i)]),
       ledger := s.ledger.(usage := usage.(requests := usage.requests + 1, queued := usage.queued + 1,
                                           queuedBytes := usage.queuedBytes + size)),
       log := s.log.(queuedData := s.log.queuedData + [frame]))
  }

  function SendSteps(i: nat): seq<Event> {
    [ReserveRequest(i), ReserveRequestShared(i, true), Insert(i), CheckOpen(i), ReserveQueue(i),
     ReserveQueueShared(i, true), Push(i)]
  }

  /** An open session has room for the request and the message of exchange `i`. */
  ghost predicate RoomToSend(c: Config, s: State, i: nat) {
    && CallAt(s, i, Begin) && TwelveBytes(s.threads[i])
    && s.gate.open && MessageSize(s.threads[i]) <= c.maxMessage
    && RequestRoom(c.limits, s.ledger.usage) && DataRoom(c.limits, s.ledger.usage, MessageSize(s.threads[i]))
  }

  /** The queues never hold more frames than are accounted for. */
  predicate QueuesCounted(s: State) {
    && |s.out.data| <= s.ledger.usage.queued && |s.out.control| <= s.ledger.usage.control
    && (s.gate.open ==> !SessionLanes.Destroying(s.out.writer))
  }

  lemma {:induction false} Registers(c: Config, s: State, i: nat, s1: State, s2: State, s3: State)
    requires RoomToSend(c, s, i) && WithinLimits(s.ledger.usage, c.limits)
    requires var t, usage := s.threads[i], s.ledger.usage.(requests := s.ledger.usage.requests + 1);
             && s1 == Put(s, i, t.(pc := RequestOwn), usage)
             && s2 == Put(s, i, t.(pc := RequestBoth), usage)
             && s3 == Put(s, i, t.(pc := Sending(Start)), usage)
                      .(book := s.book.(pending := s.book.pending[t.task.id := i]))
    ensures CallStep(c, s, ReserveRequest(i), s1) && CallStep(c, s1, ReserveRequestShared(i, true), s2)
    ensures CallStep(c, s2, Insert(i), s3)
  {
    hide Wire;
    SizeOf(s.threads[i]);
  }

  lemma {:induction false} Reserves(c: Config, s: State, i: nat, s1: State, s2: State, s3: State)
    requires SendingAt(s, i, Start) && s.gate.open && WithinLimits(s.ledger.usage, c.limits)
    requires QueuePermit(s.threads[i]).bytes <= c.maxMessage
    requires Admits(c.limits, s.ledger.usage, QueuePermit(s.threads[i]))
    requires var t, usage := s.threads[i], s.ledger.usage.Charge(QueuePermit(s.threads[i]));
             && s1 == Put(s, i, t.(pc := Sending(Checked)), s.ledger.usage)
             && s2 == Put(s, i, t.(pc := Sending(Own)), usage)
             && s3 == Put(s, i, t.(pc := Sending(Both)), usage)
    ensures SendStep(c, s, CheckOpen(i), s1) && SendStep(c, s1, ReserveQueue(i), s2)
    ensures SendStep(c, s2, ReserveQueueShared(i, true), s3)
  {
    hide FramePermit, Wire, Admits, Counts.Charge, HasRoom;
  }

  lemma {:induction false} PushesData(c: Config, s: State, i: nat, s': State)
    requires SendingAt(s, i, Both) && s.threads[i].task.Call?
    requires !SessionLanes.Destroying(s.out.writer) && |s.out.data| < c.limits.queued
    requires var t := s.threads[i];
             var item := Item(Message(t.task.id, t.task.payload), QueuePermit(t), i);
             s' == s.(threads := s.threads[i := Thread(t.task, true, Waiting)],
                      out := s.out.(data := s.out.data + [item]),
                      log := s.log.(queuedData := s.log.queuedData + [item.frame]))
    ensures SendStep(c, s, Push(i), s')
  {
    hide FramePermit, Wire, Released;
  }

  lemma {:induction false} ThreeSteps(c: Config, run: seq<State>, events: seq<Event>)
    requires |run| == 4 && |events| == 3
    requires Step(c, run[0], events[0], run[1]) && Step(c, run[1], events[1], run[2])
    requires Step(c, run[2], events[2], run[3])
    ensures Path(c, run, events)
  {
    hide Step;
    forall k | 0 <= k < 3 ensures StepAt(c, run, events, k) {
      assert k == 0 || k == 1 || k == 2;
    }
  }

  /** With room, and the shared budget granting, a send queues its message. */
  lemma {:induction false} SendPath(c: Config, s: State, i: nat) returns (run: seq<State>)
    requires RoomToSend(c, s, i) && WithinLimits(s.ledger.usage, c.limits) && QueuesCounted(s)
    ensures Path(c, run, SendSteps(i)) && run[0] == s && run[|SendSteps(i)|] == SentBy(s, i)
  {
    hide CallStep, SendStep, HandleStep, DriverStep, WriterStep, Wire, Path, Admits;
    var t, usage := s.threads[i], s.ledger.usage.(requests := s.ledger.usage.requests + 1);
    SizeOf(t);
    AdmitsRoom(c.limits, s.ledger.usage, MessageSize(t));
    var s1 := Put(s, i, t.(pc := RequestOwn), usage);
    var s2 := Put(s, i, t.(pc := RequestBoth), usage);
    var s3 := Put(s, i, t.(pc := Sending(Start)), usage).(book := s.book.(pending := s.book.pending[t.task.id := i]));
    Registers(c, s, i, s1, s2, s3);
    ThreeSteps(c, [s, s1, s2, s3], [ReserveRequest(i), ReserveRequestShared(i, true), Insert(i)]);
    StillWithin(c, s.ledger.usage);
    AdmitsRoom(c.limits, usage, MessageSize(t));
    var charged := usage.Charge(QueuePermit(t));
    var s4 := Put(s3, i, t.(pc := Sending(Checked)), usage);
    var s5 := Put(s3, i, t.(pc := Sending(Own)), charged);
    var s6 := Put(s3, i, t.(pc := Sending(Both)), charged);
    Reserves(c, s3, i, s4, s5, s6);
    ThreeSteps(c, [s3, s4, s5, s6], [CheckOpen(i), ReserveQueue(i), ReserveQueueShared(i, true)]);
    PushesData(c, s6, i, SentBy(s, i));
    PathOf(c, s6, Push(i), SentBy(s, i));
    Joined(c, [s, s1, s2, s3], [ReserveRequest(i), ReserveRequestShared(i, true), Insert(i)],
           [s3, s4, s5, s6], [CheckOpen(i), ReserveQueue(i), ReserveQueueShared(i, true)]);
    run := [s, s1, s2, s3] + [s3, s4, s5, s6][1..];
    var events := [ReserveRequest(i), ReserveRequestShared(i, true), Insert(i)]
                  + [CheckOpen(i), ReserveQueue(i), ReserveQueueShared(i, true)];
    Joined(c, run, events, [s6, SentBy(s, i)], [Push(i)]);
    run := run + [s6, SentBy(s, i)][1..];
    assert events + [Push(i)] == SendSteps(i);
  }

  lemma {:induction false} StillWithin(c: Config, usage: Counts)
    requires WithinLimits(usage, c.limits) && RequestRoom(c.limits, usage)
    ensures WithinLimits(usage.(requests := usage.requests + 1), c.limits)
  {
    var more := usage.(requests := usage.requests + 1);
    forall g ensures 0 <= more.At(g) <= c.limits.At(g) {
      assert 0 <= usage.At(g) <= c.limits.At(g);
    }
  }

  lemma {:induction false} RunCounted(c: Config, run: seq<State>, events: seq<Event>, k: nat)
    requires Run(c, run, events) && k < |run| && WithinLimits(NOTHING, c.limits)
    ensures WithinLimits(run[k].ledger.usage, c.limits) && QueuesCounted(run[k])
  {
    hide Step, Run, Wire, ItemsHold, ThreadsHold, Typed, UniqueIds, Linked, Tasks;
    var s := run[k];
    RunBalanced(c, run, events, k);
    RunKeeps(c, run, events, k);
    QueuePermits(c, run, events, k, true);
    QueuePermits(c, run, events, k, false);
    assert s.ledger.usage.At(QueuedMessages) == Held(s, QueuedMessages);
    assert s.ledger.usage.At(ControlMessages) == Held(s, ControlMessages);
  }

  lemma {:induction false} RunContinues(c: Config, run: seq<State>, events: seq<Event>, k: nat,
                                        more: seq<State>, steps: seq<Event>)
    requires Run(c, run, events) && k < |run| && Path(c, more, steps) && more[0] == run[k]
    ensures Run(c, run[..k + 1] + more[1..], events[..k] + steps)
  {
    hide Step, InitialState;
    var r, es := run[..k + 1] + more[1..], events[..k] + steps;
    assert forall m :: 0 <= m < |more| ==> r[k + m] == more[m];
    forall m | 0 <= m < |es| ensures StepAt(c, r, es, m) {
      if m < k {
        assert StepAt(c, run, events, m);
      } else {
        assert StepAt(c, more, steps, m - k);
      }
    }
  }

  /** In every run: from an open session with room for the request and for the message, whatever else goes on,
      a send that has begun queues exactly its message, and waits for the answer. */
  lemma {:induction false} SendGoesThrough(c: Config, run: seq<State>, events: seq<Event>, k: nat, i: nat)
    returns (more: seq<State>)
    requires Run(c, run, events) && k < |run| && WithinLimits(NOTHING, c.limits) && RoomToSend(c, run[k], i)
    ensures Path(c, more, SendSteps(i)) && more[0] == run[k] && more[|SendSteps(i)|] == SentBy(run[k], i)
    ensures Run(c, run[..k + 1] + more[1..], events[..k] + SendSteps(i))
  {
    hide Run, Path, RoomToSend, QueuesCounted;
    RunCounted(c, run, events, k);
    more := SendPath(c, run[k], i);
    RunContinues(c, run, events, k, more, SendSteps(i));
  }

  // ----- a turn of the writer

  /** The writer has nothing in hand, and what it will pick next is the first frame of this lane. */
  predicate TurnBegins(s: State, data: bool) {
    && s.gate.open && !s.out.stop && s.out.writer.Polling? && s.out.sink.None?
    && Queue(s.out, data) != [] && (data ==> s.out.control == [])
  }

  /** The first frame of the lane is in the sink. */
  function InSink(s: State, data: bool): State
    requires Queue(s.out, data) != []
  {
    var item := Queue(s.out, data)[0];
    s.(out := Output(if data then s.out.data[1..] else s.out.data, if data then s.out.control else s.out.control[1..],
                     Writing(item), Some(item), s.out.stop),
       log := s.log.(picked := s.log.picked + [item.frame]))
  }

  function Flushing(s: State, data: bool): State
    requires Queue(s.out, data) != []
  {
    var t, item := InSink(s, data), Queue(s.out, data)[0];
    t.(out := t.out.(sink := None),
       log := t.log.(wire := s.log.wire + [item.frame], senders := s.log.senders + [item.from]))
  }

  /** It is on the wire, and its permit given back. */
  function WrittenOut(s: State, data: bool): State
    requires Queue(s.out, data) != []
  {
    var t, permit := Flushing(s, data), Queue(s.out, data)[0].permit;
    t.(out := t.out.(writer := Polling),
       ledger := Ledger(s.ledger.usage.Refund(permit), s.ledger.dropping + [permit]))
  }

  function PickSteps(data: bool): seq<Event> {
    [SeeNoStop] + (if data then [SeeControlEmpty, PickData] else [PickControl]) + [StartWrite]
  }

  lemma {:induction false} LooksForData(c: Config, s: State)
    requires TurnBegins(s, true)
    ensures Step(c, s, SeeNoStop, s.(out := s.out.(writer := ControlNext)))
    ensures Step(c, s.(out := s.out.(writer := ControlNext)), SeeControlEmpty,
                 s.(out := s.out.(writer := ControlEmpty)))
  {
    hide CallStep, SendStep, HandleStep, DriverStep, WindUpStep, Wire, Released;
    var s1, s2 := s.(out := s.out.(writer := ControlNext)), s.(out := s.out.(writer := ControlEmpty));
    assert WriteStep(s, SeeNoStop, s1) && WriteStep(s1, SeeControlEmpty, s2);
  }

  lemma {:induction false} DataPicks(c: Config, s: State) returns (run: seq<State>)
    requires TurnBegins(s, true)
    ensures Path(c, run, [SeeNoStop, SeeControlEmpty, PickData]) && run[0] == s
    ensures var item := s.out.data[0];
            run[3] == s.(out := s.out.(writer := Picked(item), data := s.out.data[1..]),
                         log := s.log.(picked := s.log.picked + [item.frame]))
  {
    hide CallStep, SendStep, HandleStep, DriverStep, WindUpStep, Wire, Released;
    var s1, s2 := s.(out := s.out.(writer := ControlNext)), s.(out := s.out.(writer := ControlEmpty));
    var s3 := s.(out := s.out.(writer := Picked(s.out.data[0]), data := s.out.data[1..]),
                 log := s.log.(picked := s.log.picked + [s.out.data[0].frame]));
    LooksForData(c, s);
    assert WriteStep(s2, PickData, s3);
    run := [s, s1, s2, s3];
    ThreeSteps(c, run, [SeeNoStop, SeeControlEmpty, PickData]);
  }

  lemma {:induction false} ControlPicks(c: Config, s: State) returns (run: seq<State>)
    requires TurnBegins(s, false)
    ensures Path(c, run, [SeeNoStop, PickControl]) && run[0] == s
    ensures var item := s.out.control[0];
            run[2] == s.(out := s.out.(writer := Picked(item), control := s.out.control[1..]),
                         log := s.log.(picked := s.log.picked + [item.frame]))
  {
    hide CallStep, SendStep, HandleStep, DriverStep, WindUpStep, Wire, Path;
    var s1 := s.(out := s.out.(writer := ControlNext));
    var s2 := s.(out := s.out.(writer := Picked(s.out.control[0]), control := s.out.control[1..]),
                 log := s.log.(picked := s.log.picked + [s.out.control[0].frame]));
    assert WriteStep(s, SeeNoStop, s1) && WriteStep(s1, PickControl, s2);
    PathOf(c, s, SeeNoStop, s1);
    PathOf(c, s1, PickControl, s2);
    Joined(c, [s, s1], [SeeNoStop], [s1, s2], [PickControl]);
    run := [s, s1] + [s1, s2][1..];
    assert [SeeNoStop] + [PickControl] == [SeeNoStop, PickControl];
  }

  lemma {:induction false} Starts(c: Config, s: State, item: Item)
    requires s.gate.open && s.out.writer == Picked(item)
    ensures Path(c, [s, s.(out := s.out.(writer := Writing(item), sink := Some(item)))], [StartWrite])
  {
    hide CallStep, SendStep, HandleStep, DriverStep, WindUpStep, Wire, Path;
    var s' := s.(out := s.out.(writer := Writing(item), sink := Some(item)));
    assert WriteStep(s, StartWrite, s');
    PathOf(c, s, StartWrite, s');
  }

  /** The writer, left to itself in an open session, puts the next frame into its sink: the oldest control
      frame, or else the oldest data frame. */
  lemma {:induction false} PickPath(c: Config, s: State, data: bool) returns (run: seq<State>)
    requires TurnBegins(s, data)
    ensures Path(c, run, PickSteps(data)) && run[0] == s && run[|PickSteps(data)|] == InSink(s, data)
  {
    hide StepAt, Wire;
    var events: seq<Event>;
    if data {
      run := DataPicks(c, s);
      events := [SeeNoStop, SeeControlEmpty, PickData];
    } else {
      run := ControlPicks(c, s);
      events := [SeeNoStop, PickControl];
    }
    var s3 := run[|events|];
    Starts(c, s3, Queue(s.out, data)[0]);
    Joined(c, run, events, [s3, InSink(s, data)], [StartWrite]);
    run := run + [s3, InSink(s, data)][1..];
    assert events + [StartWrite] == PickSteps(data);
  }

  /** Then the frame goes onto the wire, and its permit is given back. */
  lemma {:induction false} FlushPath(c: Config, s: State, data: bool)
    requires TurnBegins(s, data)
    ensures Step(c, InSink(s, data), Flush, Flushing(s, data))
    ensures Step(c, Flushing(s, data), Written, WrittenOut(s, data))
  {
    hide CallStep, SendStep, HandleStep, DriverStep, WindUpStep, Wire, Counts.Refund;
    assert WriteStep(InSink(s, data), Flush, Flushing(s, data));
    assert WriteStep(Flushing(s, data), Written, WrittenOut(s, data));
  }

  // ----- handling a message

  /** The thread of a received message, at the point `pc`. */
  function Handling(id: Id, payload: Text, arrival: nat, holds: bool, pc: Pc): Thread {
    Thread(Handle(id, payload, arrival, None, Nak(id, None), holds), false, pc)
  }

  /** A received message is being handled, with its permit; the read loop goes on. */
  function HandledBy(s: State, id: Id, payload: Text): State {
    var usage, arrival := s.ledger.usage, s.counters.frames + 1;
    s.(threads := s.threads + [Handling(id, payload, arrival, true, Running)],
       counters := s.counters.(frames := arrival),
       ledger := s.ledger.(usage := usage.(tasks := usage.tasks + 1, taskBytes := usage.taskBytes + |payload|)),
       log := s.log.(received := s.log.received + [Message(id, payload)]))
  }

  function HandleSteps(id: Id, payload: Text, j: nat, problem: Text): seq<Event> {
    [Receive(Message(id, payload)), ReserveTask(j, problem), ReserveTaskShared(j, true, problem), Spawn(j)]
  }

  lemma {:induction false} Receives(c: Config, s: State, id: Id, payload: Text, s': State)
    requires s.driver.Selecting? && !s.gate.ended && WellFormed(Message(id, payload))
    requires s' == s.(threads := s.threads + [Handling(id, payload, s.counters.frames + 1, false, Admitting)],
                      driver := Driver.Handling(|s.threads|),
                      counters := s.counters.(frames := s.counters.frames + 1),
                      log := s.log.(received := s.log.received + [Message(id, payload)]))
    ensures ReadStep(s, Receive(Message(id, payload)), s')
  {
    hide WellFormed;
  }

  lemma {:induction false} Admitted(c: Config, s: State, j: nat, t: Thread, problem: Text, usage: Counts)
    requires HandleAt(s, j, Admitting) && s.threads[j] == t && s.driver == Driver.Handling(j)
    requires Admits(c.limits, s.ledger.usage, Permit(Handler, |t.task.payload|))
    requires usage == s.ledger.usage.Charge(Permit(Handler, |t.task.payload|))
    ensures HandleStep(c, s, ReserveTask(j, problem), Put(s, j, t.(pc := TaskOwn), usage))
    ensures HandleStep(c, Put(s, j, t.(pc := TaskOwn), usage), ReserveTaskShared(j, true, problem),
                       Put(s, j, Thread(t.task.(holds := true), t.sent, Deciding), usage))
  {
    hide Admits, Counts.Charge, AfterReturn, Unsent, ReplyTo;
  }

  lemma {:induction false} Spawned(c: Config, s: State, j: nat, t: Thread, usage: Counts)
    requires j < |s.threads| && t.task.Handle? && s.driver == Driver.Handling(j)
    ensures HandleStep(c, Put(s, j, Thread(t.task.(holds := true), t.sent, Deciding), usage), Spawn(j),
                       Put(s, j, Thread(t.task.(holds := true), t.sent, Running), usage).(driver := Selecting))
  {
    hide Admits, Counts.Charge, AfterReturn, Unsent, ReplyTo, AfterReserveTask, AfterReserveTaskShared;
  }

  /** With room for its handler, and the shared budget granting, a received message is handled. */
  lemma {:induction false} HandlePath(c: Config, s: State, id: Id, payload: Text, problem: Text)
    returns (run: seq<State>)
    requires s.driver.Selecting? && !s.gate.ended && WellFormed(Message(id, payload))
    requires WithinLimits(s.ledger.usage, c.limits) && HandlerRoom(c.limits, s.ledger.usage, |payload|)
    ensures var events := HandleSteps(id, payload, |s.threads|, problem);
            Path(c, run, events) && run[0] == s && run[|events|] == HandledBy(s, id, payload)
  {
    hide CallStep, SendStep, HandleStep, ReadStep, CloseStep, WriterStep, WellFormed, Admits, Path, Counts.Charge;
    var j, arrival := |s.threads|, s.counters.frames + 1;
    var t := Handling(id, payload, arrival, false, Admitting);
    var p := Permit(Handler, |payload|);
    AdmitsRoom(c.limits, s.ledger.usage, |payload|);
    var s1 := s.(threads := s.threads + [t], driver := Driver.Handling(j),
                 counters := s.counters.(frames := arrival),
                 log := s.log.(received := s.log.received + [Message(id, payload)]));
    Receives(c, s, id, payload, s1);
    var usage := s.ledger.usage.Charge(p);
    var s2 := Put(s1, j, t.(pc := TaskOwn), usage);
    var s3 := Put(s1, j, Thread(t.task.(holds := true), false, Deciding), usage);
    var s4 := Put(s1, j, Thread(t.task.(holds := true), false, Running), usage).(driver := Selecting);
    Admitted(c, s1, j, t, problem, usage);
    Spawned(c, s1, j, t, usage);
    var admit := [ReserveTask(j, problem), ReserveTaskShared(j, true, problem), Spawn(j)];
    ThreeSteps(c, [s1, s2, s3, s4], admit);
    PathOf(c, s, Receive(Message(id, payload)), s1);
    Joined(c, [s, s1], [Receive(Message(id, payload))], [s1, s2, s3, s4], admit);
    run := [s, s1] + [s1, s2, s3, s4][1..];
    assert [Receive(Message(id, payload))] + admit == HandleSteps(id, payload, j, problem);
    Charged(s.ledger.usage, |payload|);
    assert s4.threads == HandledBy(s, id, payload).threads;
  }

  lemma {:induction false} Charged(usage: Counts, bytes: nat)
    ensures usage.Charge(Permit(Handler, bytes))
            == usage.(tasks := usage.tasks + 1, taskBytes := usage.taskBytes + bytes)
    ensures usage.Charge(Permit(Control, bytes))
            == usage.(control := usage.control + 1, controlBytes := usage.controlBytes + bytes)
  {
  }

  // ----- answering it

  /** The reply is queued, with its permit, and the handling is over and has given its own permit back. */
  function AnsweredBy(s: State, j: nat, result: HandlerResult): State
    requires HandleAt(s, j, Running)
  {
    var t, usage := s.threads[j].task, s.ledger.usage;
    var frame := ReplyTo(t.id, result);
    var size := |Wire(frame)|;
    s.(threads := s.threads[j := Thread(t.(result := Some(result), reply := frame, holds := false), true, Finished)],
       out := s.out.(control := s.out.control + [Item(frame, Permit(Control, size), j)]),
       ledger := Ledger(usage.(control := usage.control + 1, controlBytes := usage.controlBytes + size,
                               tasks := usage.tasks - 1, taskBytes := usage.taskBytes - |t.payload|),
                        s.ledger.dropping + [Permit(Handler, |t.payload|)]),
       log := s.log.(queuedControl := s.log.queuedControl + [frame]))
  }

  function AnswerSteps(j: nat, result: HandlerResult): seq<Event> {
    [Return(j, result), CheckOpen(j), ReserveQueue(j), ReserveQueueShared(j, true), Push(j)]
  }

  lemma {:induction false} Returns(c: Config, s: State, j: nat, result: HandlerResult)
    requires HandleAt(s, j, Running)
    ensures var t := s.threads[j];
            HandleStep(c, s, Return(j, result),
                       Put(s, j, Thread(t.task.(result := Some(result), reply := ReplyTo(t.task.id, result)), t.sent,
                                        Sending(Start)), s.ledger.usage))
  {
  }

  lemma {:induction false} PushesReply(c: Config, s: State, j: nat, s': State)
    requires SendingAt(s, j, Both) && s.threads[j].task.Handle? && s.threads[j].task.holds
    requires !SessionLanes.Destroying(s.out.writer) && |s.out.control| < c.limits.control
    requires s.driver != Driver.Handling(j)
    requires var t := s.threads[j].task;
             var item := Item(t.reply, QueuePermit(s.threads[j]), j);
             s' == s.(threads := s.threads[j := Thread(t.(holds := false), true, Finished)],
                      out := s.out.(control := s.out.control + [item]),
                      ledger := Released(s.ledger, Permit(Handler, |t.payload|)),
                      log := s.log.(queuedControl := s.log.queuedControl + [item.frame]))
    ensures SendStep(c, s, Push(j), s')
  {
    hide FramePermit, Wire, Released;
  }

  /** An open session has room for this reply. */
  predicate RoomToAnswer(c: Config, s: State, j: nat, result: HandlerResult) {
    && HandleAt(s, j, Running) && s.threads[j].task.holds && s.driver != Driver.Handling(j) && s.gate.open
    && |Wire(ReplyTo(s.threads[j].task.id, result))| <= c.maxMessage
    && ControlRoom(c.limits, s.ledger.usage, |Wire(ReplyTo(s.threads[j].task.id, result))|)
  }

  /** With room, and the shared budget granting, what a handler made of a message is queued as its reply. */
  lemma {:induction false} AnswerPath(c: Config, s: State, j: nat, result: HandlerResult) returns (run: seq<State>)
    requires RoomToAnswer(c, s, j, result) && s.threads[j].sent == false
    requires WithinLimits(s.ledger.usage, c.limits) && QueuesCounted(s)
    ensures Path(c, run, AnswerSteps(j, result)) && run[0] == s
    ensures run[|AnswerSteps(j, result)|] == AnsweredBy(s, j, result)
  {
    hide CallStep, SendStep, HandleStep, DriverStep, WriterStep, Wire, Admits, Path, Counts.Charge, ReplyTo;
    var frame := ReplyTo(s.threads[j].task.id, result);
    var t := Thread(s.threads[j].task.(result := Some(result), reply := frame), false, Sending(Start));
    var s1 := Put(s, j, t, s.ledger.usage);
    Returns(c, s, j, result);
    PathOf(c, s, Return(j, result), s1);
    AdmitsRoom(c.limits, s.ledger.usage, |Wire(frame)|);
    assert QueuePermit(t) == Permit(Control, |Wire(frame)|);
    var usage := s.ledger.usage.Charge(QueuePermit(t));
    var s2 := Put(s1, j, t.(pc := Sending(Checked)), s.ledger.usage);
    var s3 := Put(s1, j, t.(pc := Sending(Own)), usage);
    var s4 := Put(s1, j, t.(pc := Sending(Both)), usage);
    Reserves(c, s1, j, s2, s3, s4);
    var reserve := [CheckOpen(j), ReserveQueue(j), ReserveQueueShared(j, true)];
    ThreeSteps(c, [s1, s2, s3, s4], reserve);
    Charged(s.ledger.usage, |Wire(frame)|);
    var s5 := AnsweredBy(s, j, result);
    PushesReply(c, s4, j, s5);
    PathOf(c, s4, Push(j), s5);
    Joined(c, [s, s1], [Return(j, result)], [s1, s2, s3, s4], reserve);
    run := [s, s1] + [s1, s2, s3, s4][1..];
    Joined(c, run, [Return(j, result)] + reserve, [s4, s5], [Push(j)]);
    run := run + [s4, s5][1..];
    assert [Return(j, result)] + reserve + [Push(j)] == AnswerSteps(j, result);
  }

  // ----- a heartbeat

  /** A heartbeat of this interval is queued, with its permit. */
  function BeatBy(s: State, interval: nat): State {
    var frame, usage := Heartbeat(interval), s.ledger.usage;
    s.(threads := s.threads + [Thread(Beat(interval), true, Finished)],
       out := s.out.(control := s.out.control + [Item(frame, Permit(Control, |Wire(frame)|), |s.threads|)]),
       ledger := s.ledger.(usage := usage.(control := usage.control + 1,
                                           controlBytes := usage.controlBytes + |Wire(frame)|)),
       log := s.log.(queuedControl := s.log.queuedControl + [frame]))
  }

  function BeatSteps(i: nat, interval: nat): seq<Event> {
    [StartBeat(interval), CheckOpen(i), ReserveQueue(i), ReserveQueueShared(i, true), Push(i)]
  }

  lemma {:induction false} Beats(c: Config, s: State, interval: nat)
    requires s.gate.open
    ensures SendStep(c, s, StartBeat(interval),
                     s.(threads := s.threads + [Thread(Beat(interval), false, Sending(Start))]))
  {
  }

  lemma {:induction false} PushesBeat(c: Config, s: State, i: nat, s': State)
    requires SendingAt(s, i, Both) && s.threads[i].task.Beat?
    requires !SessionLanes.Destroying(s.out.writer) && |s.out.control| < c.limits.control
    requires s.driver != Driver.Handling(i)
    requires var item := Item(Heartbeat(s.threads[i].task.interval), QueuePermit(s.threads[i]), i);
             s' == s.(threads := s.threads[i := Thread(s.threads[i].task, true, Finished)],
                      out := s.out.(control := s.out.control + [item]),
                      log := s.log.(queuedControl := s.log.queuedControl + [item.frame]))
    ensures SendStep(c, s, Push(i), s')
  {
    hide FramePermit, Wire, Released;
  }

  /** With room, and the shared budget granting, a heartbeat of the given interval is queued. */
  lemma {:induction false} BeatPath(c: Config, s: State, interval: nat) returns (run: seq<State>)
    requires s.gate.open && |Wire(Heartbeat(interval))| <= c.maxMessage && s.driver != Driver.Handling(|s.threads|)
    requires ControlRoom(c.limits, s.ledger.usage, |Wire(Heartbeat(interval))|)
    requires WithinLimits(s.ledger.usage, c.limits) && QueuesCounted(s)
    ensures Path(c, run, BeatSteps(|s.threads|, interval)) && run[0] == s
    ensures run[|BeatSteps(|s.threads|, interval)|] == BeatBy(s, interval)
  {
    hide CallStep, SendStep, HandleStep, DriverStep, WriterStep, Wire, Admits, Path, Counts.Charge;
    var i, frame := |s.threads|, Heartbeat(interval);
    var t := Thread(Beat(interval), false, Sending(Start));
    var s1 := s.(threads := s.threads + [t]);
    Beats(c, s, interval);
    PathOf(c, s, StartBeat(interval), s1);
    AdmitsRoom(c.limits, s.ledger.usage, |Wire(frame)|);
    assert QueuePermit(t) == Permit(Control, |Wire(frame)|);
    var usage := s.ledger.usage.Charge(QueuePermit(t));
    var s2 := Put(s1, i, t.(pc := Sending(Checked)), s.ledger.usage);
    var s3 := Put(s1, i, t.(pc := Sending(Own)), usage);
    var s4 := Put(s1, i, t.(pc := Sending(Both)), usage);
    Reserves(c, s1, i, s2, s3, s4);
    var reserve := [CheckOpen(i), ReserveQueue(i), ReserveQueueShared(i, true)];
    ThreeSteps(c, [s1, s2, s3, s4], reserve);
    Charged(s.ledger.usage, |Wire(frame)|);
    var s5 := BeatBy(s, interval);
    assert s5.threads == s4.threads[i := Thread(Beat(interval), true, Finished)];
    PushesBeat(c, s4, i, s5);
    PathOf(c, s4, Push(i), s5);
    Joined(c, [s, s1], [StartBeat(interval)], [s1, s2, s3, s4], reserve);
    run := [s, s1] + [s1, s2, s3, s4][1..];
    Joined(c, run, [StartBeat(interval)] + reserve, [s4, s5], [Push(i)]);
    run := run + [s4, s5][1..];
    assert [StartBeat(interval)] + reserve + [Push(i)] == BeatSteps(i, interval);
  }

  // ----- the answer arrives

  predicate AwaitsIt(s: State, i: nat, f: Frame) {
    && (f.Ack? || f.Nak?) && WellFormed(f) && s.driver.Selecting? && !s.gate.ended
    && CallAt(s, i, Waiting) && s.threads[i].task.slot.None? && s.threads[i].task.id == f.id
    && f.id in s.book.pending && s.book.pending[f.id] == i
  }

  /** The send has returned with the answer; its entry and its request are gone. */
  function ReturnedBy(s: State, i: nat, f: Frame): State
    requires AwaitsIt(s, i, f)
  {
    var t, usage, arrival := s.threads[i], s.ledger.usage, s.counters.frames + 1;
    var o := OutcomeOf(f, arrival);
    s.(threads := s.threads[i := Thread(t.task.(slot := Some(o)), t.sent, Ended(o))],
       book := s.book.(pending := s.book.pending - {f.id}),
       counters := s.counters.(frames := arrival),
       ledger := Ledger(usage.(requests := usage.requests - 1), s.ledger.dropping + [Permit(Request, 0)]),
       log := s.log.(received := s.log.received + [f]))
  }

  function ReturnSteps(i: nat, f: Frame): seq<Event> {
    [Receive(f), Deliver, Wake(i), CleanUp(i)]
  }

  lemma {:induction false} AnswerReceived(c: Config, s: State, i: nat, f: Frame, s1: State, s2: State)
    requires AwaitsIt(s, i, f)
    requires var t, o := s.threads[i], OutcomeOf(f, s.counters.frames + 1);
             && s1 == s.(book := s.book.(pending := s.book.pending - {f.id}), driver := Delivering(i, o),
                         counters := s.counters.(frames := s.counters.frames + 1),
                         ledger := Released(s.ledger, REQUEST),
                         log := s.log.(received := s.log.received + [f]))
             && s2 == s1.(threads := s.threads[i := t.(task := t.task.(slot := Some(o)))], driver := Selecting)
    ensures Step(c, s, Receive(f), s1) && Step(c, s1, Deliver, s2)
  {
    hide CallStep, SendStep, HandleStep, CloseStep, WriterStep, WellFormed, Released;
    assert ReadStep(s, Receive(f), s1) && ReadStep(s1, Deliver, s2);
  }

  lemma {:induction false} AnswerTaken(c: Config, s: State, i: nat, o: Outcome, s1: State, s2: State)
    requires CallAt(s, i, Waiting) && s.threads[i].task.slot == Some(o) && s.threads[i].task.id !in s.book.pending
    requires s1 == Put(s, i, s.threads[i].(pc := Cleanup(o)), s.ledger.usage)
    requires s2 == Put(s, i, s.threads[i].(pc := Ended(o)), s.ledger.usage)
    ensures Step(c, s, Wake(i), s1) && Step(c, s1, CleanUp(i), s2)
  {
    hide SendStep, HandleStep, DriverStep, WriterStep, Released;
    assert CallStep(c, s, Wake(i), s1) && CallStep(c, s1, CleanUp(i), s2);
  }

  /** An answer that arrives for a waiting send is what the send returns. */
  lemma {:induction false} ReturnPath(c: Config, s: State, i: nat, f: Frame) returns (run: seq<State>)
    requires AwaitsIt(s, i, f)
    ensures Path(c, run, ReturnSteps(i, f)) && run[0] == s && run[|ReturnSteps(i, f)|] == ReturnedBy(s, i, f)
  {
    hide Step, WellFormed, Path;
    var t, o := s.threads[i], OutcomeOf(f, s.counters.frames + 1);
    var s1 := s.(book := s.book.(pending := s.book.pending - {f.id}), driver := Delivering(i, o),
                 counters := s.counters.(frames := s.counters.frames + 1),
                 ledger := Released(s.ledger, REQUEST),
                 log := s.log.(received := s.log.received + [f]));
    var s2 := s1.(threads := s.threads[i := t.(task := t.task.(slot := Some(o)))], driver := Selecting);
    AnswerReceived(c, s, i, f, s1, s2);
    var s3 := Put(s2, i, s2.threads[i].(pc := Cleanup(o)), s2.ledger.usage);
    var s4 := ReturnedBy(s, i, f);
    assert s4 == Put(s2, i, s2.threads[i].(pc := Ended(o)), s2.ledger.usage);
    AnswerTaken(c, s2, i, o, s3, s4);
    ThreeSteps(c, [s, s1, s2, s3], [Receive(f), Deliver, Wake(i)]);
    PathOf(c, s3, CleanUp(i), s4);
    Joined(c, [s, s1, s2, s3], [Receive(f), Deliver, Wake(i)], [s3, s4], [CleanUp(i)]);
    run := [s, s1, s2, s3] + [s3, s4][1..];
    assert [Receive(f), Deliver, Wake(i)] + [CleanUp(i)] == ReturnSteps(i, f);
  }
}
