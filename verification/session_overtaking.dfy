/** A run in which a heartbeat is overtaken by a message that the writer had not yet picked. */
module SessionOvertaking {
  import opened Texts
  import opened Frames
  import opened Resources
  import opened Sessions
  import opened SessionLanes

  const LIMITS := Config(Counts(1, 10, 10, 1000, 10, 1000, 10, 1000), 100)
  const ID: Text := [65, 65, 65, 65, 65, 65, 65, 65, 65, 65, 65, 65]
  const CALL := Call(ID, [], None)
  const BEAT := Beat(1)
  const DATA := Permit(Data, 15)
  const CONTROL := Permit(Control, 4)
  const MESSAGE := Item(Message(ID, []), DATA, 0)
  const HEARTBEAT := Item(Heartbeat(1), CONTROL, 1)

  lemma {:induction false} Sizes()
    ensures FramePermit(CALL) == DATA && FramePermit(BEAT) == CONTROL
  {
    assert Decimal(1) == [ZERO + 1];
  }

  /** An open session in which nothing is received. */
  function Scene(threads: seq<Thread>, pending: map<Id, nat>, out: Output, usage: Counts, log: Log): State {
    State(Gate(true, false, false, false, false), Book(pending, map[]), threads, out, Selecting, Ledger(usage, []),
          Counters(0, 0), log)
  }

  function Quiet(w: Writer, data: seq<Item>, control: seq<Item>): Output {
    Output(data, control, w, None, false)
  }

  function Records(data: seq<Frame>, control: seq<Frame>, picked: seq<Frame>): Log {
    Log([], data, control, picked, [], [], [])
  }

  function Asking(pc: Pc, requests: int): State {
    Scene([Thread(CALL, false, pc)], map[], Quiet(Polling, [], []), NOTHING.(requests := requests), Records([], [], []))
  }

  function Enqueueing(stage: Stage, frames: int): State {
    Scene([Thread(CALL, false, Sending(stage))], map[ID := 0], Quiet(Polling, [], []),
          NOTHING.(requests := 1, queued := frames, queuedBytes := 15 * frames), Records([], [], []))
  }

  function Beating(stage: Stage, frames: int, w: Writer): State {
    Scene([Thread(CALL, true, Waiting), Thread(BEAT, false, Sending(stage))], map[ID := 0], Quiet(w, [MESSAGE], []),
          Counts(0, 1, 1, 15, frames, 4 * frames, 0, 0), Records([MESSAGE.frame], [], []))
  }

  function Queued(): State {
    Scene([Thread(CALL, true, Waiting)], map[ID := 0], Quiet(Polling, [MESSAGE], []),
          Counts(0, 1, 1, 15, 0, 0, 0, 0), Records([MESSAGE.frame], [], []))
  }

  function Overtaken(w: Writer, data: seq<Item>, picked: seq<Frame>): State {
    Scene([Thread(CALL, true, Waiting), Thread(BEAT, true, Finished)], map[ID := 0], Quiet(w, data, [HEARTBEAT]),
          Counts(0, 1, 1, 15, 1, 4, 0, 0), Records([MESSAGE.frame], [HEARTBEAT.frame], picked))
  }

  lemma {:induction false} AskingSteps()
    ensures Step(LIMITS, InitialState(), Send(ID, []), Asking(Begin, 0))
    ensures Step(LIMITS, Asking(Begin, 0), ReserveRequest(0), Asking(RequestOwn, 1))
    ensures Step(LIMITS, Asking(RequestOwn, 1), ReserveRequestShared(0, true), Asking(RequestBoth, 1))
    ensures Step(LIMITS, Asking(RequestBoth, 1), Insert(0), Enqueueing(Start, 0))
  {
    hide SendStep, HandleStep, DriverStep, WriterStep;
    assert CallStep(LIMITS, InitialState(), Send(ID, []), Asking(Begin, 0));
    assert CallStep(LIMITS, Asking(Begin, 0), ReserveRequest(0), Asking(RequestOwn, 1));
    assert CallStep(LIMITS, Asking(RequestOwn, 1), ReserveRequestShared(0, true), Asking(RequestBoth, 1));
    assert CallStep(LIMITS, Asking(RequestBoth, 1), Insert(0), Enqueueing(Start, 0));
  }

  lemma {:induction false} EnqueueingSteps()
    ensures Step(LIMITS, Enqueueing(Start, 0), CheckOpen(0), Enqueueing(Checked, 0))
    ensures Step(LIMITS, Enqueueing(Checked, 0), ReserveQueue(0), Enqueueing(Own, 1))
  {
    hide CallStep, HandleStep, DriverStep, WriterStep, FramePermit;
    Sizes();
    assert SendStep(LIMITS, Enqueueing(Start, 0), CheckOpen(0), Enqueueing(Checked, 0));
    assert SendStep(LIMITS, Enqueueing(Checked, 0), ReserveQueue(0), Enqueueing(Own, 1));
  }

  lemma {:induction false} EnqueuedSteps()
    ensures Step(LIMITS, Enqueueing(Own, 1), ReserveQueueShared(0, true), Enqueueing(Both, 1))
    ensures Step(LIMITS, Enqueueing(Both, 1), Push(0), Queued())
  {
    hide CallStep, HandleStep, DriverStep, WriterStep, FramePermit;
    Sizes();
    assert SendStep(LIMITS, Enqueueing(Own, 1), ReserveQueueShared(0, true), Enqueueing(Both, 1));
    assert SendStep(LIMITS, Enqueueing(Both, 1), Push(0), Queued());
  }

  lemma {:induction false} BeatingSteps()
    ensures Step(LIMITS, Queued(), StartBeat(1), Beating(Start, 0, Polling))
    ensures Step(LIMITS, Beating(Start, 0, Polling), CheckOpen(1), Beating(Checked, 0, Polling))
    ensures Step(LIMITS, Beating(Checked, 0, Polling), ReserveQueue(1), Beating(Own, 1, Polling))
    ensures Step(LIMITS, Beating(Own, 1, Polling), ReserveQueueShared(1, true), Beating(Both, 1, Polling))
  {
    hide CallStep, HandleStep, DriverStep, WriterStep, FramePermit;
    Sizes();
    assert SendStep(LIMITS, Queued(), StartBeat(1), Beating(Start, 0, Polling));
    assert SendStep(LIMITS, Beating(Start, 0, Polling), CheckOpen(1), Beating(Checked, 0, Polling));
    assert SendStep(LIMITS, Beating(Checked, 0, Polling), ReserveQueue(1), Beating(Own, 1, Polling));
    assert SendStep(LIMITS, Beating(Own, 1, Polling), ReserveQueueShared(1, true), Beating(Both, 1, Polling));
  }

  lemma {:induction false} LookingSteps()
    ensures Step(LIMITS, Beating(Both, 1, Polling), SeeNoStop, Beating(Both, 1, ControlNext))
    ensures Step(LIMITS, Beating(Both, 1, ControlNext), SeeControlEmpty, Beating(Both, 1, ControlEmpty))
  {
    hide CallStep, SendStep, HandleStep, DriverStep, WindUpStep, Counts.Refund;
    assert WriteStep(Beating(Both, 1, Polling), SeeNoStop, Beating(Both, 1, ControlNext));
    assert WriteStep(Beating(Both, 1, ControlNext), SeeControlEmpty, Beating(Both, 1, ControlEmpty));
  }

  lemma {:induction false} PickingStep()
    ensures Step(LIMITS, Overtaken(ControlEmpty, [MESSAGE], []), PickData,
                 Overtaken(Picked(MESSAGE), [], [MESSAGE.frame]))
  {
    hide CallStep, SendStep, HandleStep, DriverStep, WindUpStep, Counts.Refund;
    var s, s' := Overtaken(ControlEmpty, [MESSAGE], []), Overtaken(Picked(MESSAGE), [], [MESSAGE.frame]);
    assert [MESSAGE][1..] == [] && s.log.picked + [MESSAGE.frame] == s'.log.picked;
    assert WriteStep(s, PickData, s');
  }

  lemma {:induction false} QueueingStep()
    ensures Step(LIMITS, Beating(Both, 1, ControlEmpty), Push(1), Overtaken(ControlEmpty, [MESSAGE], []))
  {
    hide CallStep, HandleStep, DriverStep, WriterStep, FramePermit;
    Sizes();
    assert SendStep(LIMITS, Beating(Both, 1, ControlEmpty), Push(1), Overtaken(ControlEmpty, [MESSAGE], []));
  }

  /** The heartbeat is queued at event `j`, when no message is picked or being written, and yet the message
      is picked before it, at event `j + 1`. */
  lemma {:induction false} OvertakingHappens() returns (run: seq<State>, events: seq<Event>, j: nat)
    ensures Run(LIMITS, run, events) && j + 1 < |events|
    ensures events[j] == Push(1) && run[j].log.picked == [] && run[j + 1].out.control == [HEARTBEAT]
    ensures events[j + 1] == PickData
    ensures run[j + 2].log.picked == [MESSAGE.frame] && run[j + 2].out.control == [HEARTBEAT]
  {
    hide Step, InitialState;
    AskingSteps();
    EnqueueingSteps();
    EnqueuedSteps();
    BeatingSteps();
    LookingSteps();
    QueueingStep();
    PickingStep();
    run := [InitialState(), Asking(Begin, 0), Asking(RequestOwn, 1), Asking(RequestBoth, 1),
            Enqueueing(Start, 0), Enqueueing(Checked, 0), Enqueueing(Own, 1), Enqueueing(Both, 1), Queued(),
            Beating(Start, 0, Polling), Beating(Checked, 0, Polling), Beating(Own, 1, Polling),
            Beating(Both, 1, Polling), Beating(Both, 1, ControlNext), Beating(Both, 1, ControlEmpty),
            Overtaken(ControlEmpty, [MESSAGE], []), Overtaken(Picked(MESSAGE), [], [MESSAGE.frame])];
    events := [Send(ID, []), ReserveRequest(0), ReserveRequestShared(0, true), Insert(0),
               CheckOpen(0), ReserveQueue(0), ReserveQueueShared(0, true), Push(0),
               StartBeat(1), CheckOpen(1), ReserveQueue(1), ReserveQueueShared(1, true),
               SeeNoStop, SeeControlEmpty, Push(1), PickData];
    j := 14;
  }
}
