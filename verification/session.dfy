/** The session of `src/session.rs` as atomic steps. Every step is one critical section, one channel
    operation or one atomic access; between two steps of a task any other task may run.

    A thread is one activity of the session: an `exchange`, the handling of a received message (first
    inside the read loop, then in its own task), or the sending of a heartbeat. The list of threads
    only grows, so it is also the record of how each activity ended. */
module Sessions {
  import opened Texts
  import opened Frames
  import opened Resources

  type Id = Text

  datatype Failure = NotOpen | TooLarge | Overloaded | SessionClosed | TimedOut | Abandoned

  /** How an exchange is settled. */
  datatype Outcome =
    | Acked(result: Option<Text>, arrival: nat)
    | Refused(problem: Option<Text>)
    | Failed(why: Failure)

  datatype HandlerResult = Returned(payload: Option<Text>) | Raised(problem: Text)

  /** How far `enqueue` has come. */
  datatype Stage = Start | Checked | Own | Both

  datatype Pc =
    // exchange
    | Begin
    | RequestOwn
    | RequestBoth
    | Waiting
    | Cleanup(outcome: Outcome)
    | Ended(outcome: Outcome)
    // handle_message and its task
    | Admitting
    | TaskOwn
    | Deciding
    | Running
    // enqueue, and close() when a mandatory frame could not be queued
    | Sending(stage: Stage)
    | MustClose
    | Finished

  /** `slot` is the one-shot channel on which an exchange waits. `reply` is meaningful once a handled
      message is being answered; `holds` says that its handling owns task permits. */
  datatype Task =
    | Call(id: Id, payload: Text, slot: Option<Outcome>)
    | Handle(id: Id, payload: Text, arrival: nat, result: Option<HandlerResult>, reply: Frame, holds: bool)
    | Beat(interval: nat)

  /** `sent` records that the frame of this thread was queued. */
  datatype Thread = Thread(task: Task, sent: bool, pc: Pc)

  /** A queued frame with its permit and the thread that queued it. */
  datatype Item = Item(frame: Frame, permit: Permit, from: nat)

  /** A turn of the writer begins at `Polling`. It looks for the order to stop, then at the control queue,
      then at the data queue. */
  datatype Writer =
    | Polling
    | ControlNext
    | ControlEmpty
    | Picked(item: Item)
    | Writing(item: Item)
    | Failing(item: Item)
    | Ending(permit: Option<Permit>)
    | SinkGone(permit: Option<Permit>)
    | Dropping
    | Gone

  datatype Driver =
    | Selecting
    | Handling(thread: nat)
    | Delivering(thread: nat, outcome: Outcome)
    | Leaving
    | Reaping
    | AwaitingWriter
    | Finishing
    | Draining
    | Done

  datatype Config = Config(limits: Counts, maxMessage: nat)

  /** `open`; whether the caller that cleared it has still to notify; the stored `close_requested`
      notification; the published `closed`; and whether the stream of incoming frames has ended. */
  datatype Gate = Gate(open: bool, notifying: bool, closeAsked: bool, closed: bool, ended: bool)

  /** The map of pending exchanges, and the entries taken out of it by `finish_close`. */
  datatype Book = Book(pending: map<Id, nat>, draining: map<Id, nat>)

  /** The two channels, the writer task and what its sink has buffered. */
  datatype Output = Output(
    data: seq<Item>,
    control: seq<Item>,
    writer: Writer,
    sink: Option<Item>,
    stop: bool)

  /** The session's own usage, and the permits whose own half is released and whose shared half is
      about to be. */
  datatype Ledger = Ledger(usage: Counts, dropping: seq<Permit>)

  datatype Counters = Counters(frames: nat, ignored: nat)

  /** What has happened, for stating properties; no step depends on it. */
  datatype Log = Log(
    received: seq<Frame>,
    queuedData: seq<Frame>,
    queuedControl: seq<Frame>,
    picked: seq<Frame>,
    wire: seq<Frame>,
    senders: seq<nat>,
    dropped: seq<Frame>)

  datatype State = State(
    gate: Gate,
    book: Book,
    threads: seq<Thread>,
    out: Output,
    driver: Driver,
    ledger: Ledger,
    counters: Counters,
    log: Log)

  datatype Event =
    // exchange
    | Send(id: Id, payload: Text)
    | ReserveRequest(i: nat)
    | ReserveRequestShared(i: nat, granted: bool)
    | Insert(i: nat)
    | Wake(i: nat)
    | SenderGone(i: nat)
    | Expire(i: nat)
    | Abandon(i: nat)
    | CleanUp(i: nat)
    // enqueue
    | CheckOpen(i: nat)
    | ReserveQueue(i: nat)
    | ReserveQueueShared(i: nat, granted: bool)
    | Push(i: nat)
    | CloseAfterFailure(i: nat)
    | StartBeat(interval: nat)
    // handle_message
    | ReserveTask(i: nat, problem: Text)
    | ReserveTaskShared(i: nat, granted: bool, problem: Text)
    | Reject(i: nat, nak: Option<Text>)
    | Spawn(i: nat)
    | Return(i: nat, result: HandlerResult)
    | Abort(i: nat)
    // read loop
    | ReceiveOversized
    | ReceiveInvalid
    | Receive(frame: Frame)
    | Deliver
    | LeaveLoop
    | StopReading
    | Reaped
    | WriterJoined
    | Drain
    | FailPending(id: Id)
    | Publish
    // writer
    | SeeNoStop
    | PickControl
    | SeeControlEmpty
    | PickData
    | SeeNothing
    | StartWrite
    | Flush
    | Written
    | WriteFails
    | CloseAfterWrite
    | StopWriting
    | AbortWriter
    | DropSink
    | CloseQueues
    | DropControl
    | DropData
    | WriterEnds
    // anyone
    | Close
    | Notify
    | StreamEnds
    | ReleaseShared(k: nat)

  const REQUEST := Permit(Request, 0)

  function InitialState(): State {
    State(Gate(true, false, false, false, false), Book(map[], map[]), [], Output([], [], Polling, None, false),
          Selecting, Ledger(NOTHING, []), Counters(0, 0), Log([], [], [], [], [], [], []))
  }

  function FrameOf(task: Task): Frame {
    match task
    case Call(id, payload, _) => Message(id, payload)
    case Handle(_, _, _, _, reply, _) => reply
    case Beat(interval) => Heartbeat(interval)
  }

  function FramePermit(task: Task): Permit {
    Permit(if task.Call? then Data else Control, |Wire(FrameOf(task))|)
  }

  /** The frame a thread sends, and the permit for it. */
  function Outgoing(t: Thread): Frame {
    FrameOf(t.task)
  }

  function QueuePermit(t: Thread): Permit {
    FramePermit(t.task)
  }

  function TaskPermit(t: Thread): Permit
    requires t.task.Handle?
  {
    Permit(Handler, |t.task.payload|)
  }

  function Capacity(limit: int): int {
    if limit < 1 then 1 else limit
  }

  /** Whether `try_send` finds the receiver alive and a free slot. */
  predicate HasRoom(c: Config, out: Output, t: Thread) {
    && !out.writer.Dropping? && !out.writer.Gone?
    && (if t.task.Call? then |out.data| < Capacity(c.limits.queued) else |out.control| < Capacity(c.limits.control))
  }

  predicate CallAt(s: State, i: nat, pc: Pc) {
    i < |s.threads| && s.threads[i].task.Call? && s.threads[i].pc == pc
  }

  predicate HandleAt(s: State, i: nat, pc: Pc) {
    i < |s.threads| && s.threads[i].task.Handle? && s.threads[i].pc == pc
  }

  predicate SendingAt(s: State, i: nat, stage: Stage) {
    i < |s.threads| && s.threads[i].pc == Sending(stage)
  }

  ghost predicate FreshId(threads: seq<Thread>, id: Id) {
    forall k :: 0 <= k < |threads| && threads[k].task.Call? ==> threads[k].task.id != id
  }

  predicate AllHandled(threads: seq<Thread>) {
    forall k :: 0 <= k < |threads| && threads[k].task.Handle? ==> threads[k].pc == Finished
  }

  /** Someone can still complete the one-shot channel of exchange `i`. */
  predicate SenderAlive(book: Book, driver: Driver, id: Id, i: nat) {
    || (id in book.pending && book.pending[id] == i)
    || (id in book.draining && book.draining[id] == i)
    || (driver.Delivering? && driver.thread == i)
  }

  function SetPc(s: State, i: nat, pc: Pc): State
    requires i < |s.threads|
  {
    s.(threads := s.threads[i := s.threads[i].(pc := pc)])
  }

  function Taken(l: Ledger, p: Permit): Ledger {
    l.(usage := l.usage.Charge(p))
  }

  /** Dropping the own half alone, after the shared budget refused. */
  function GivenBack(l: Ledger, p: Permit): Ledger {
    l.(usage := l.usage.Refund(p))
  }

  /** Dropping a pair of permits: the own half now, the shared half in a later step. */
  function Released(l: Ledger, p: Permit): Ledger {
    Ledger(l.usage.Refund(p), l.dropping + [p])
  }

  /** `close()`: only the caller that clears `open` goes on to notify the read loop. */
  function Shut(g: Gate): Gate {
    g.(open := false, notifying := g.notifying || g.open)
  }

  // ----- exchange

  function AfterReserveRequest(c: Config, s: State, i: nat): State
    requires CallAt(s, i, Begin)
  {
    if |s.threads[i].task.payload| + 15 > c.maxMessage then SetPc(s, i, Ended(Failed(TooLarge)))
    else if Admits(c.limits, s.ledger.usage, REQUEST) then
      SetPc(s, i, RequestOwn).(ledger := Taken(s.ledger, REQUEST))
    else SetPc(s, i, Ended(Failed(Overloaded)))
  }

  function AfterReserveRequestShared(s: State, i: nat, granted: bool): State
    requires CallAt(s, i, RequestOwn)
  {
    if granted then SetPc(s, i, RequestBoth)
    else SetPc(s, i, Ended(Failed(Overloaded))).(ledger := GivenBack(s.ledger, REQUEST))
  }

  /** Under the lock of `pending`: check `open`, then register. */
  function AfterInsert(s: State, i: nat): State
    requires CallAt(s, i, RequestBoth)
  {
    if s.gate.open then
      SetPc(s, i, Sending(Start)).(book := s.book.(pending := s.book.pending[s.threads[i].task.id := i]))
    else
      SetPc(s, i, Ended(Failed(NotOpen))).(ledger := Released(s.ledger, REQUEST))
  }

  /** `PendingCleanup::drop`. */
  function AfterCleanUp(s: State, i: nat): State
    requires i < |s.threads| && s.threads[i].task.Call? && s.threads[i].pc.Cleanup?
  {
    var id := s.threads[i].task.id;
    var ended := SetPc(s, i, Ended(s.threads[i].pc.outcome));
    if id in s.book.pending then
      ended.(book := s.book.(pending := s.book.pending - {id}), ledger := Released(s.ledger, REQUEST))
    else ended
  }

  // ----- enqueue

  /** Where an unsuccessful `enqueue` leads. */
  function GivingUp(t: Thread, why: Failure): Pc {
    if t.task.Call? then Cleanup(Failed(why)) else MustClose
  }

  function AfterCheckOpen(c: Config, s: State, i: nat): State
    requires SendingAt(s, i, Start)
  {
    var t := s.threads[i];
    SetPc(s, i,
      if !s.gate.open then GivingUp(t, NotOpen)
      else if QueuePermit(t).bytes > c.maxMessage then GivingUp(t, TooLarge)
      else Sending(Checked))
  }

  function AfterReserveQueue(c: Config, s: State, i: nat): State
    requires SendingAt(s, i, Checked)
  {
    var t := s.threads[i];
    if Admits(c.limits, s.ledger.usage, QueuePermit(t)) then
      SetPc(s, i, Sending(Own)).(ledger := Taken(s.ledger, QueuePermit(t)))
    else SetPc(s, i, GivingUp(t, Overloaded))
  }

  function AfterReserveQueueShared(s: State, i: nat, granted: bool): State
    requires SendingAt(s, i, Own)
  {
    var t := s.threads[i];
    if granted then SetPc(s, i, Sending(Both))
    else SetPc(s, i, GivingUp(t, Overloaded)).(ledger := GivenBack(s.ledger, QueuePermit(t)))
  }

  /** The end of `handle_message` or of its task, or of `send_heartbeat`. */
  function Through(t: Thread, sent: bool): Thread
    requires !t.task.Call?
  {
    Thread(if t.task.Handle? then t.task.(holds := false) else t.task, sent, Finished)
  }

  /** The task permits go with the task. */
  function AfterTask(l: Ledger, t: Thread): Ledger {
    if t.task.Handle? && t.task.holds then Released(l, TaskPermit(t)) else l
  }

  /** When the read loop itself answered, it goes on. */
  function Resumed(d: Driver, i: nat): Driver {
    if d == Handling(i) then Selecting else d
  }

  function AfterPush(c: Config, s: State, i: nat): State
    requires SendingAt(s, i, Both)
  {
    var t := s.threads[i];
    var item := Item(Outgoing(t), QueuePermit(t), i);
    if !HasRoom(c, s.out, t) then
      SetPc(s, i, GivingUp(t, Overloaded)).(ledger := Released(s.ledger, item.permit))
    else if t.task.Call? then
      s.(threads := s.threads[i := Thread(t.task, true, Waiting)],
         out := s.out.(data := s.out.data + [item]),
         log := s.log.(queuedData := s.log.queuedData + [item.frame]))
    else
      s.(threads := s.threads[i := Through(t, true)],
         out := s.out.(control := s.out.control + [item]),
         driver := Resumed(s.driver, i),
         ledger := AfterTask(s.ledger, t),
         log := s.log.(queuedControl := s.log.queuedControl + [item.frame]))
  }

  /** A task ends without its frame having been queued. */
  function Unsent(s: State, i: nat): State
    requires i < |s.threads| && !s.threads[i].task.Call?
  {
    s.(threads := s.threads[i := Through(s.threads[i], s.threads[i].sent)],
       driver := Resumed(s.driver, i),
       ledger := AfterTask(s.ledger, s.threads[i]))
  }

  // ----- handle_message

  function Answering(t: Thread, reply: Frame): Thread
    requires t.task.Handle?
  {
    Thread(t.task.(reply := reply), t.sent, Sending(Start))
  }

  function AfterReserveTask(c: Config, s: State, i: nat, problem: Text): State
    requires HandleAt(s, i, Admitting)
  {
    var t := s.threads[i];
    if Admits(c.limits, s.ledger.usage, TaskPermit(t)) then
      SetPc(s, i, TaskOwn).(ledger := Taken(s.ledger, TaskPermit(t)))
    else s.(threads := s.threads[i := Answering(t, Nak(t.task.id, Normalised(Some(problem))))])
  }

  function AfterReserveTaskShared(s: State, i: nat, granted: bool, problem: Text): State
    requires HandleAt(s, i, TaskOwn)
  {
    var t := s.threads[i];
    if granted then s.(threads := s.threads[i := Thread(t.task.(holds := true), t.sent, Deciding)])
    else s.(threads := s.threads[i := Answering(t, Nak(t.task.id, Normalised(Some(problem))))],
            ledger := GivenBack(s.ledger, TaskPermit(t)))
  }

  /** The reply to what the handler made of the message. */
  function ReplyTo(id: Id, result: HandlerResult): Frame {
    match result
    case Returned(payload) => Ack(id, Normalised(payload))
    case Raised(problem) => Nak(id, Normalised(Some(problem)))
  }

  function AfterReturn(s: State, i: nat, result: HandlerResult): State
    requires HandleAt(s, i, Running)
  {
    var t := s.threads[i];
    s.(threads := s.threads[i :=
         Thread(t.task.(result := Some(result), reply := ReplyTo(t.task.id, result)), t.sent, Sending(Start))])
  }

  // ----- read loop

  function Logged(s: State, f: Frame): State {
    s.(counters := s.counters.(frames := s.counters.frames + 1),
       log := s.log.(received := s.log.received + [f]))
  }

  /** `take_pending` for an ACK or NAK; unknown ids change nothing. */
  function Settling(s: State, id: Id, outcome: Outcome): State {
    if id in s.book.pending then
      s.(book := s.book.(pending := s.book.pending - {id}),
         driver := Delivering(s.book.pending[id], outcome),
         ledger := Released(s.ledger, REQUEST))
    else s.(counters := s.counters.(ignored := s.counters.ignored + 1))
  }

  function AfterReceive(s: State, f: Frame): State {
    var arrival := s.counters.frames + 1;
    match f
    case Heartbeat(_) => Logged(s, f)
    case Ack(id, result) => Settling(Logged(s, f), id, Acked(result, arrival))
    case Nak(id, problem) => Settling(Logged(s, f), id, Refused(problem))
    case Message(id, payload) =>
      Logged(s, f).(
        threads := s.threads + [Thread(Handle(id, payload, arrival, None, Nak(id, None), false), false, Admitting)],
        driver := Handling(|s.threads|))
  }

  /** Completing a one-shot channel whose receiver is gone has no effect. */
  function Completed(threads: seq<Thread>, i: nat, outcome: Outcome): seq<Thread> {
    if i < |threads| && threads[i].task.Call? && !threads[i].pc.Ended?
    then threads[i := threads[i].(task := threads[i].task.(slot := Some(outcome)))]
    else threads
  }

  // ----- writer

  function DroppedFrame(log: Log, f: Frame): Log {
    log.(dropped := log.dropped + [f])
  }

  function SinkDropped(log: Log, sink: Option<Item>): Log {
    if sink.Some? then DroppedFrame(log, sink.value.frame) else log
  }

  function AfterStartWrite(s: State): State
    requires s.out.writer.Picked?
  {
    var item := s.out.writer.item;
    if s.gate.open then s.(out := s.out.(writer := Writing(item), sink := Some(item)))
    else s.(out := s.out.(writer := Ending(None)),
            ledger := Released(s.ledger, item.permit),
            log := DroppedFrame(s.log, item.frame))
  }

  function AfterFlush(s: State): State
    requires s.out.sink.Some?
  {
    s.(out := s.out.(sink := None),
       log := s.log.(wire := s.log.wire + [s.out.sink.value.frame],
                     senders := s.log.senders + [s.out.sink.value.from]))
  }

  /** The permit of the write in progress, which the writer keeps while its sink is alive. */
  function InFlight(w: Writer): Option<Permit> {
    if w.Writing? || w.Failing? then Some(w.item.permit) else None
  }

  // ----- the steps

  ghost predicate CallStep(c: Config, s: State, e: Event, s': State) {
    match e
    case Send(id, payload) =>
      FreshId(s.threads, id) && s' == s.(threads := s.threads + [Thread(Call(id, payload, None), false, Begin)])
    case ReserveRequest(i) => CallAt(s, i, Begin) && s' == AfterReserveRequest(c, s, i)
    case ReserveRequestShared(i, granted) =>
      CallAt(s, i, RequestOwn) && s' == AfterReserveRequestShared(s, i, granted)
    case Insert(i) => CallAt(s, i, RequestBoth) && s' == AfterInsert(s, i)
    case Wake(i) =>
      CallAt(s, i, Waiting) && s.threads[i].task.slot.Some? && s' == SetPc(s, i, Cleanup(s.threads[i].task.slot.value))
    case SenderGone(i) =>
      && CallAt(s, i, Waiting) && s.threads[i].task.slot.None?
      && !SenderAlive(s.book, s.driver, s.threads[i].task.id, i)
      && s' == SetPc(s, i, Cleanup(Failed(SessionClosed)))
    case Expire(i) =>
      CallAt(s, i, Waiting) && s.threads[i].task.slot.None? && s' == SetPc(s, i, Cleanup(Failed(TimedOut)))
    case Abandon(i) => CallAt(s, i, Waiting) && s' == SetPc(s, i, Cleanup(Failed(Abandoned)))
    case CleanUp(i) =>
      && i < |s.threads| && s.threads[i].task.Call? && s.threads[i].pc.Cleanup?
      && s' == AfterCleanUp(s, i)
    case _ => false
  }

  ghost predicate SendStep(c: Config, s: State, e: Event, s': State) {
    match e
    case CheckOpen(i) => SendingAt(s, i, Start) && s' == AfterCheckOpen(c, s, i)
    case ReserveQueue(i) => SendingAt(s, i, Checked) && s' == AfterReserveQueue(c, s, i)
    case ReserveQueueShared(i, granted) => SendingAt(s, i, Own) && s' == AfterReserveQueueShared(s, i, granted)
    case Push(i) => SendingAt(s, i, Both) && s' == AfterPush(c, s, i)
    case CloseAfterFailure(i) =>
      && i < |s.threads| && !s.threads[i].task.Call? && s.threads[i].pc == MustClose
      && s' == Unsent(s, i).(gate := Shut(s.gate))
    case StartBeat(interval) =>
      s.gate.open && s' == s.(threads := s.threads + [Thread(Beat(interval), false, Sending(Start))])
    case _ => false
  }

  ghost predicate HandleStep(c: Config, s: State, e: Event, s': State) {
    match e
    case ReserveTask(i, problem) => HandleAt(s, i, Admitting) && s' == AfterReserveTask(c, s, i, problem)
    case ReserveTaskShared(i, granted, problem) =>
      HandleAt(s, i, TaskOwn) && s' == AfterReserveTaskShared(s, i, granted, problem)
    case Reject(i, nak) =>
      && HandleAt(s, i, Deciding)
      && s' == s.(threads := s.threads[i := Answering(s.threads[i], Nak(s.threads[i].task.id, Normalised(nak)))])
    case Spawn(i) => HandleAt(s, i, Deciding) && s' == SetPc(s, i, Running).(driver := Resumed(s.driver, i))
    case Return(i, result) => HandleAt(s, i, Running) && s' == AfterReturn(s, i, result)
    case Abort(i) => HandleAt(s, i, Running) && s.driver.Reaping? && s' == Unsent(s, i)
    case _ => false
  }

  ghost predicate ReadStep(s: State, e: Event, s': State) {
    match e
    case ReceiveOversized => s.driver.Selecting? && !s.gate.ended && s' == s.(gate := Shut(s.gate))
    case ReceiveInvalid =>
      s.driver.Selecting? && !s.gate.ended && s' == s.(counters := s.counters.(ignored := s.counters.ignored + 1))
    case Receive(frame) =>
      s.driver.Selecting? && !s.gate.ended && WellFormed(frame) && s' == AfterReceive(s, frame)
    case Deliver =>
      && s.driver.Delivering?
      && s' == s.(threads := Completed(s.threads, s.driver.thread, s.driver.outcome), driver := Selecting)
    case LeaveLoop => s.driver.Selecting? && (s.gate.closeAsked || s.gate.ended) && s' == s.(driver := Leaving)
    case _ => false
  }

  ghost predicate CloseStep(s: State, e: Event, s': State) {
    match e
    case StopReading => s.driver.Leaving? && s' == s.(gate := Shut(s.gate), driver := Reaping)
    case Reaped =>
      s.driver.Reaping? && AllHandled(s.threads) && s' == s.(driver := AwaitingWriter, out := s.out.(stop := true))
    case WriterJoined => s.driver.AwaitingWriter? && s.out.writer.Gone? && s' == s.(driver := Finishing)
    case Drain =>
      && s.driver.Finishing?
      && s' == s.(gate := s.gate.(open := false), book := Book(map[], s.book.pending), driver := Draining)
    case FailPending(id) =>
      && s.driver.Draining? && id in s.book.draining
      && s' == s.(threads := Completed(s.threads, s.book.draining[id], Failed(SessionClosed)),
                  book := s.book.(draining := s.book.draining - {id}),
                  ledger := Released(s.ledger, REQUEST))
    case Publish =>
      && s.driver.Draining? && s.book.draining == map[]
      && s' == s.(gate := s.gate.(closed := true), driver := Done)
    case Close => s' == s.(gate := Shut(s.gate))
    case Notify => s.gate.notifying && s' == s.(gate := s.gate.(notifying := false, closeAsked := true))
    case StreamEnds => s' == s.(gate := s.gate.(ended := true))
    case ReleaseShared(k) =>
      k < |s.ledger.dropping| && s' == s.(ledger := s.ledger.(dropping := Without(s.ledger.dropping, k)))
    case _ => false
  }

  ghost predicate WriteStep(s: State, e: Event, s': State) {
    var out := s.out;
    match e
    case SeeNoStop => out.writer.Polling? && !out.stop && s' == s.(out := out.(writer := ControlNext))
    case PickControl =>
      && out.writer.ControlNext? && out.control != []
      && s' == s.(out := out.(writer := Picked(out.control[0]), control := out.control[1..]),
                  log := s.log.(picked := s.log.picked + [out.control[0].frame]))
    case SeeControlEmpty =>
      out.writer.ControlNext? && out.control == [] && s' == s.(out := out.(writer := ControlEmpty))
    case PickData =>
      && out.writer.ControlEmpty? && out.data != []
      && s' == s.(out := out.(writer := Picked(out.data[0]), data := out.data[1..]),
                  log := s.log.(picked := s.log.picked + [out.data[0].frame]))
    case SeeNothing => out.writer.ControlEmpty? && out.data == [] && s' == s.(out := out.(writer := Polling))
    case StartWrite => out.writer.Picked? && s' == AfterStartWrite(s)
    case Flush => (out.writer.Writing? || out.writer.Ending?) && out.sink.Some? && s' == AfterFlush(s)
    case Written =>
      && out.writer.Writing? && out.sink.None?
      && s' == s.(out := out.(writer := Polling), ledger := Released(s.ledger, out.writer.item.permit))
    case WriteFails => out.writer.Writing? && s' == s.(out := out.(writer := Failing(out.writer.item)))
    case CloseAfterWrite =>
      && out.writer.Failing?
      && s' == s.(gate := Shut(s.gate), out := out.(writer := Ending(InFlight(out.writer))))
    case _ => false
  }

  ghost predicate WindUpStep(s: State, e: Event, s': State) {
    var out := s.out;
    match e
    case StopWriting =>
      && out.stop && (out.writer.Polling? || out.writer.Writing?)
      && s' == s.(out := out.(writer := Ending(InFlight(out.writer))))
    case AbortWriter =>
      && out.stop && (out.writer.Polling? || out.writer.Writing?)
      && s' == s.(out := out.(writer := SinkGone(InFlight(out.writer)), sink := None),
                  log := SinkDropped(s.log, out.sink))
    case DropSink =>
      && out.writer.Ending?
      && s' == s.(out := out.(writer := SinkGone(out.writer.permit), sink := None),
                  log := SinkDropped(s.log, out.sink))
    case CloseQueues =>
      && out.writer.SinkGone?
      && s' == s.(out := out.(writer := Dropping),
                  ledger := if out.writer.permit.Some? then Released(s.ledger, out.writer.permit.value) else s.ledger)
    case DropControl =>
      && out.writer.Dropping? && out.control != []
      && s' == s.(out := out.(control := out.control[1..]),
                  ledger := Released(s.ledger, out.control[0].permit),
                  log := DroppedFrame(s.log, out.control[0].frame))
    case DropData =>
      && out.writer.Dropping? && out.data != []
      && s' == s.(out := out.(data := out.data[1..]),
                  ledger := Released(s.ledger, out.data[0].permit),
                  log := DroppedFrame(s.log, out.data[0].frame))
    case WriterEnds =>
      out.writer.Dropping? && out.control == [] && out.data == [] && s' == s.(out := out.(writer := Gone))
    case _ => false
  }

  /** The read loop and what follows it. */
  ghost predicate DriverStep(s: State, e: Event, s': State) {
    ReadStep(s, e, s') || CloseStep(s, e, s')
  }

  /** The loop of the writer task and what follows it. */
  ghost predicate WriterStep(s: State, e: Event, s': State) {
    WriteStep(s, e, s') || WindUpStep(s, e, s')
  }

  ghost predicate Step(c: Config, s: State, e: Event, s': State) {
    || CallStep(c, s, e, s')
    || SendStep(c, s, e, s')
    || HandleStep(c, s, e, s')
    || DriverStep(s, e, s')
    || WriterStep(s, e, s')
  }

  /** Event `k` leads from state `k` to the next. */
  ghost predicate StepAt(c: Config, run: seq<State>, events: seq<Event>, k: nat)
    requires k < |events| && |run| == |events| + 1
  {
    Step(c, run[k], events[k], run[k + 1])
  }

  /** A run: the states a session goes through, and the events in between. */
  ghost predicate Run(c: Config, run: seq<State>, events: seq<Event>) {
    && |run| == |events| + 1
    && run[0] == InitialState()
    && forall k :: 0 <= k < |events| ==> StepAt(c, run, events, k)
  }
}
