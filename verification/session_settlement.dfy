/** What closing and settlement promise, over every run of a session. */
module SessionSettlement {
  import opened Texts
  import opened Frames
  import opened Resources
  import opened Sessions
  import opened SessionClose

  /** Everything `closed()` stands for. */
  predicate AllReleased(s: State) {
    && !s.gate.open
    && s.book.pending == map[] && s.book.draining == map[]
    && s.out.data == [] && s.out.control == [] && s.out.writer.Gone? && s.out.sink.None?
    && AllHandled(s.threads)
  }

  /** `open` only falls, and only `Publish` raises `closed`. */
  predicate GateMove(g: Gate, e: Event, g': Gate) {
    && (g'.open ==> g.open)
    && (g.closed ==> g'.closed)
    && (g.ended ==> g'.ended)
    && (g'.closed && !g.closed ==> e.Publish?)
  }

  lemma {:induction false} ThreadsMoveGate(c: Config, s: State, e: Event, s': State)
    requires CallStep(c, s, e, s') || HandleStep(c, s, e, s')
    ensures GateMove(s.gate, e, s'.gate)
  {
    hide Admits, QueuePermit, TaskPermit, Released, Taken, GivenBack, AfterTask;
  }

  lemma {:induction false} SendMovesGate(c: Config, s: State, e: Event, s': State)
    requires SendStep(c, s, e, s')
    ensures GateMove(s.gate, e, s'.gate)
  {
    hide Admits, QueuePermit, TaskPermit, Released, Taken, GivenBack, AfterTask, HasRoom, FrameOf, Wire;
  }

  lemma {:induction false} ReadMovesGate(s: State, e: Event, s': State)
    requires ReadStep(s, e, s')
    ensures GateMove(s.gate, e, s'.gate)
  {
  }

  lemma {:induction false} ClosingMovesGate(s: State, e: Event, s': State)
    requires CloseStep(s, e, s')
    ensures GateMove(s.gate, e, s'.gate)
  {
  }

  lemma {:induction false} WriterMovesGate(s: State, e: Event, s': State)
    requires WriterStep(s, e, s')
    ensures GateMove(s.gate, e, s'.gate)
  {
    hide Released, Wire, FramePermit;
  }

  lemma {:induction false} GateMoves(c: Config, s: State, e: Event, s': State)
    requires Step(c, s, e, s')
    ensures GateMove(s.gate, e, s'.gate)
  {
    hide CallStep, SendStep, HandleStep, ReadStep, CloseStep, WriteStep, WindUpStep, GateMove;
    if CallStep(c, s, e, s') || HandleStep(c, s, e, s') {
      ThreadsMoveGate(c, s, e, s');
    } else if SendStep(c, s, e, s') {
      SendMovesGate(c, s, e, s');
    } else if ReadStep(s, e, s') {
      ReadMovesGate(s, e, s');
    } else if CloseStep(s, e, s') {
      ClosingMovesGate(s, e, s');
    } else {
      WriterMovesGate(s, e, s');
    }
  }

  lemma {:induction false} GateMonotone(c: Config, run: seq<State>, events: seq<Event>, j: nat, k: nat)
    requires Run(c, run, events) && j <= k < |run|
    ensures run[k].gate.open ==> run[j].gate.open
    ensures run[j].gate.closed ==> run[k].gate.closed
  {
    hide Step;
    if j < k {
      GateMonotone(c, run, events, j, k - 1);
      assert StepAt(c, run, events, k - 1);
      GateMoves(c, run[k - 1], events[k - 1], run[k]);
    }
  }

  /** Once `closed` is published it stays so, and from then on nothing of the session is left: it is
      not open, no exchange is pending, both queues and the sink are gone, no handler is alive. */
  lemma {:induction false} ClosedForGood(c: Config, run: seq<State>, events: seq<Event>, j: nat, k: nat)
    requires Run(c, run, events) && j <= k < |run| && run[j].gate.closed
    ensures run[k].gate.closed && AllReleased(run[k])
  {
    hide Step, Run;
    GateMonotone(c, run, events, j, k);
    RunKeeps(c, run, events, k);
  }

  lemma {:induction false} SenderPresent(c: Config, s: State, e: Event, s': State)
    requires CloseInv(s) && CallStep(c, s, e, s')
    ensures !e.SenderGone?
  {
  }

  /** The branch of `exchange` for a one-shot channel whose sender disappeared is never taken. */
  lemma {:induction false} SenderNeverGone(c: Config, run: seq<State>, events: seq<Event>, k: nat)
    requires Run(c, run, events) && k < |events|
    ensures !events[k].SenderGone?
  {
    hide CloseInv, Admits, QueuePermit, TaskPermit;
    RunKeeps(c, run, events, k);
    assert StepAt(c, run, events, k);
    if CallStep(c, run[k], events[k], run[k + 1]) {
      SenderPresent(c, run[k], events[k], run[k + 1]);
    }
  }

  // ----- no exchange waits forever

  /** How many steps an exchange is from its end at most. */
  function StepsLeft(pc: Pc): nat {
    match pc
    case Begin => 9
    case RequestOwn => 8
    case RequestBoth => 7
    case Sending(Start) => 6
    case Sending(Checked) => 5
    case Sending(Own) => 4
    case Sending(Both) => 3
    case Waiting => 2
    case Cleanup(_) => 1
    case _ => 0
  }

  /** The next step of an exchange; it is the exchange's own, apart from the answer of the shared
      budget, for which either value will do. An exchange that waits without an answer has its deadline. */
  function OwnStep(t: Thread, i: nat, granted: bool): Event
    requires t.task.Call?
  {
    match t.pc
    case Begin => ReserveRequest(i)
    case RequestOwn => ReserveRequestShared(i, granted)
    case RequestBoth => Insert(i)
    case Sending(Start) => CheckOpen(i)
    case Sending(Checked) => ReserveQueue(i)
    case Sending(Own) => ReserveQueueShared(i, granted)
    case Sending(Both) => Push(i)
    case Waiting => if t.task.slot.Some? then Wake(i) else Expire(i)
    case _ => CleanUp(i)
  }

  /** Before registration, while enqueueing, and when waiting: the next step of an exchange is always
      possible, and brings it closer to its end. */
  lemma {:induction false} RequestMoves(c: Config, s: State, i: nat, granted: bool) returns (s': State)
    requires Typed(s.threads) && i < |s.threads| && s.threads[i].task.Call? && Rank(s.threads[i].pc) == 0
    ensures CallStep(c, s, OwnStep(s.threads[i], i, granted), s')
    ensures |s'.threads| == |s.threads| && s'.threads[i].task == s.threads[i].task
    ensures StepsLeft(s'.threads[i].pc) < StepsLeft(s.threads[i].pc)
  {
    hide Admits, Counts.Charge, Counts.Refund;
    assert PcFits(s.threads[i]);
    s' := if s.threads[i].pc.Begin? then AfterReserveRequest(c, s, i)
          else if s.threads[i].pc.RequestOwn? then AfterReserveRequestShared(s, i, granted)
          else AfterInsert(s, i);
  }

  lemma {:induction false} EnqueueMoves(c: Config, s: State, i: nat, granted: bool) returns (s': State)
    requires i < |s.threads| && s.threads[i].task.Call? && s.threads[i].pc.Sending?
    ensures SendStep(c, s, OwnStep(s.threads[i], i, granted), s')
    ensures |s'.threads| == |s.threads| && s'.threads[i].task == s.threads[i].task
    ensures StepsLeft(s'.threads[i].pc) < StepsLeft(s.threads[i].pc)
  {
    hide Admits, FramePermit, FrameOf, HasRoom, Counts.Charge, Counts.Refund;
    s' := match s.threads[i].pc.stage
          case Start => AfterCheckOpen(c, s, i)
          case Checked => AfterReserveQueue(c, s, i)
          case Own => AfterReserveQueueShared(s, i, granted)
          case Both => AfterPush(c, s, i);
  }

  lemma {:induction false} WaitMoves(c: Config, s: State, i: nat, granted: bool) returns (s': State)
    requires i < |s.threads| && s.threads[i].task.Call? && (s.threads[i].pc.Waiting? || s.threads[i].pc.Cleanup?)
    ensures CallStep(c, s, OwnStep(s.threads[i], i, granted), s')
    ensures |s'.threads| == |s.threads| && s'.threads[i].task == s.threads[i].task
    ensures StepsLeft(s'.threads[i].pc) < StepsLeft(s.threads[i].pc)
  {
    hide Counts.Refund;
    if s.threads[i].pc.Waiting? {
      var slot := s.threads[i].task.slot;
      s' := SetPc(s, i, Cleanup(if slot.Some? then slot.value else Failed(TimedOut)));
    } else {
      s' := AfterCleanUp(s, i);
    }
  }

  /** In a closed session whoever waits has been answered. */
  lemma {:induction false} ClosedAnswers(s: State, i: nat)
    requires CloseInv(s) && s.gate.closed && i < |s.threads| && s.threads[i].task.Call? && s.threads[i].pc.Waiting?
    ensures s.threads[i].task.slot.Some?
  {
    assert !SenderAlive(s.book, s.driver, s.threads[i].task.id, i);
  }

  /** Events of exchange `i` alone, and of its deadline. */
  predicate OwnEvents(events: seq<Event>, i: nat) {
    forall k :: 0 <= k < |events| ==>
      events[k] in {ReserveRequest(i), ReserveRequestShared(i, true), ReserveRequestShared(i, false), Insert(i),
                    CheckOpen(i), ReserveQueue(i), ReserveQueueShared(i, true), ReserveQueueShared(i, false),
                    Push(i), Wake(i), Expire(i), CleanUp(i)}
  }

  /** Every exchange reaches its end by at most nine steps of its own and its deadline, whatever the state
      of the session and the answers of the shared budget; in a closed session even without the deadline. */
  lemma {:induction false} ExchangeEnds(c: Config, s: State, i: nat, granted: bool)
    returns (run: seq<State>, events: seq<Event>)
    requires CloseInv(s) && i < |s.threads| && s.threads[i].task.Call?
    ensures |run| == |events| + 1 && run[0] == s && |events| <= StepsLeft(s.threads[i].pc) <= 9
    ensures OwnEvents(events, i)
    ensures forall k :: 0 <= k < |events| ==> StepAt(c, run, events, k)
    ensures var last := run[|events|]; i < |last.threads| && last.threads[i].pc.Ended?
    ensures s.gate.closed ==> run[|events|].gate.closed && forall k :: 0 <= k < |events| ==> !events[k].Expire?
    decreases StepsLeft(s.threads[i].pc)
  {
    hide CallStep, SendStep, Phases, Tasks, Linked, UniqueIds;
    if s.threads[i].pc.Ended? {
      return [s], [];
    }
    var e := OwnStep(s.threads[i], i, granted);
    var s': State;
    assert PcFits(s.threads[i]);
    if Rank(s.threads[i].pc) == 0 {
      s' := RequestMoves(c, s, i, granted);
    } else if s.threads[i].pc.Sending? {
      s' := EnqueueMoves(c, s, i, granted);
    } else {
      if s.gate.closed && s.threads[i].pc.Waiting? {
        ClosedAnswers(s, i);
      }
      s' := WaitMoves(c, s, i, granted);
    }
    StepKeeps(c, s, e, s');
    GateMoves(c, s, e, s');
    var rest, tail := ExchangeEnds(c, s', i, granted);
    run, events := [s] + rest, [e] + tail;
    forall k | 0 <= k < |events| ensures StepAt(c, run, events, k) {
      if k > 0 {
        assert StepAt(c, rest, tail, k - 1);
      }
    }
  }

  // ----- exactly one settlement

  /** A reply, once it is being sent, and the answer of the handler behind it no longer change. */
  predicate Answered(pc: Pc) {
    pc.Sending? || pc.MustClose? || pc.Finished?
  }

  /** What no step takes back: the identity of a thread, a settled channel, a queued frame, a reply
      under way, the end of an exchange or of a task. */
  predicate Evolves(t: Thread, t': Thread) {
    && (t.sent ==> t'.sent)
    && (t.pc.Ended? || t.pc.Finished? ==> t' == t)
    && (match t.task
        case Call(id, payload, slot) =>
          && t'.task.Call? && t'.task.id == id && t'.task.payload == payload
          && (slot.Some? ==> t'.task.slot == slot)
        case Handle(id, payload, arrival, result, reply, _) =>
          && t'.task.Handle? && t'.task.id == id && t'.task.payload == payload && t'.task.arrival == arrival
          && (Answered(t.pc) ==> Answered(t'.pc) && t'.task.result == result && t'.task.reply == reply)
        case Beat(_) => t'.task == t.task)
  }

  lemma {:induction false} CallsEvolve(c: Config, s: State, e: Event, s': State, i: nat)
    requires CloseInv(s) && CallStep(c, s, e, s') && i < |s.threads|
    ensures i < |s'.threads| && Evolves(s.threads[i], s'.threads[i])
  {
    hide Admits, QueuePermit, TaskPermit, CloseInv, Released, Taken, GivenBack;
  }

  lemma {:induction false} SendsEvolve(c: Config, s: State, e: Event, s': State, i: nat)
    requires CloseInv(s) && SendStep(c, s, e, s') && i < |s.threads|
    ensures i < |s'.threads| && Evolves(s.threads[i], s'.threads[i])
  {
    hide Admits, QueuePermit, TaskPermit, Phases, Tasks, Linked, UniqueIds, Counts.Charge, Counts.Refund, Outgoing;
    assert PcFits(s.threads[i]);
  }

  lemma {:induction false} HandlesEvolve(c: Config, s: State, e: Event, s': State, i: nat)
    requires CloseInv(s) && HandleStep(c, s, e, s') && i < |s.threads|
    ensures i < |s'.threads| && Evolves(s.threads[i], s'.threads[i])
  {
    hide Admits, QueuePermit, TaskPermit, Phases, Tasks, Linked, UniqueIds, Released, Taken, GivenBack, AfterTask;
  }

  lemma {:induction false} ReadsEvolve(s: State, e: Event, s': State, i: nat)
    requires CloseInv(s) && ReadStep(s, e, s') && i < |s.threads|
    ensures i < |s'.threads| && Evolves(s.threads[i], s'.threads[i])
  {
    hide Released, WellFormed, Phases, Typed, UniqueIds, Complete;
  }

  lemma {:induction false} ClosingEvolves(s: State, e: Event, s': State, i: nat)
    requires CloseInv(s) && CloseStep(s, e, s') && i < |s.threads|
    ensures i < |s'.threads| && Evolves(s.threads[i], s'.threads[i])
  {
    if e.FailPending? {
      assert Unsettled(s.threads, e.id, s.book.draining[e.id]);
    }
  }

  lemma {:induction false} WriterKeepsThreads(s: State, e: Event, s': State)
    requires WriterStep(s, e, s')
    ensures s'.threads == s.threads
  {
  }

  lemma {:induction false} ThreadEvolves(c: Config, s: State, e: Event, s': State, i: nat)
    requires CloseInv(s) && Step(c, s, e, s') && i < |s.threads|
    ensures i < |s'.threads| && Evolves(s.threads[i], s'.threads[i])
  {
    hide CallStep, SendStep, HandleStep, ReadStep, CloseStep, WriteStep, WindUpStep, CloseInv;
    if CallStep(c, s, e, s') {
      CallsEvolve(c, s, e, s', i);
    } else if SendStep(c, s, e, s') {
      SendsEvolve(c, s, e, s', i);
    } else if HandleStep(c, s, e, s') {
      HandlesEvolve(c, s, e, s', i);
    } else if ReadStep(s, e, s') {
      ReadsEvolve(s, e, s', i);
    } else if CloseStep(s, e, s') {
      ClosingEvolves(s, e, s', i);
    } else {
      WriterKeepsThreads(s, e, s');
    }
  }

  /** An exchange is settled at most once: in every later state of the run its end is the same. */
  lemma {:induction false} SettledOnce(c: Config, run: seq<State>, events: seq<Event>, j: nat, k: nat, i: nat)
    requires Run(c, run, events) && j <= k < |run| && i < |run[j].threads|
    ensures i < |run[k].threads|
    ensures run[j].threads[i].pc.Ended? ==> run[k].threads[i] == run[j].threads[i]
    ensures run[j].threads[i].task.Call? ==>
              run[k].threads[i].task.Call? && run[k].threads[i].task.id == run[j].threads[i].task.id
  {
    hide Step, CloseInv;
    if j < k {
      SettledOnce(c, run, events, j, k - 1, i);
      RunKeeps(c, run, events, k - 1);
      assert StepAt(c, run, events, k - 1);
      ThreadEvolves(c, run[k - 1], events[k - 1], run[k], i);
    }
  }

  /** An ACK or NAK takes the entry with its id out and no other. */
  lemma {:induction false} AnswerTouchesOne(s: State, f: Frame)
    requires f.Ack? || f.Nak?
    ensures var s' := AfterReceive(s, f);
            && s'.book == s.book.(pending := s.book.pending - {f.id})
            && s'.threads == s.threads && s'.out == s.out && s'.gate == s.gate
  {
    assert f.id !in s.book.pending ==> s.book.pending - {f.id} == s.book.pending;
  }

  /** Completing the channel then touches the exchange with that id only. */
  lemma {:induction false} DeliveryTouchesOne(s: State, s': State, k: nat)
    requires DriverStep(s, Deliver, s') && k < |s.threads| && k != s.driver.thread
    ensures k < |s'.threads| && s'.threads[k] == s.threads[k]
    ensures s'.book == s.book && s'.out == s.out && s'.ledger == s.ledger && s'.gate == s.gate
  {
  }

  /** Exchange `i` has the id, is registered and has not been answered. */
  predicate AwaitsAnswer(ts: seq<Thread>, i: nat, id: Id) {
    Unsettled(ts, id, i) && Rank(ts[i].pc) == 1
  }

  /** Every exchange with the id has not registered yet, has been answered or is over; or there is none. */
  predicate NobodyAwaits(ts: seq<Thread>, id: Id) {
    forall i :: 0 <= i < |ts| && ts[i].task.Call? && ts[i].task.id == id ==>
                  Rank(ts[i].pc) == 0 || ts[i].task.slot.Some? || ts[i].pc.Ended?
  }

  function OutcomeOf(f: Frame, arrival: nat): Outcome
    requires f.Ack? || f.Nak?
  {
    if f.Ack? then Acked(f.result, arrival) else Refused(f.problem)
  }

  /** An ACK or NAK reaches exactly the exchange that awaits it, in every run. If none does, because the id
      is unknown or the answer late or a duplicate, it changes no exchange, permit or queue: only the counters
      of received and ignored frames. */
  lemma {:induction false} AnswerReaches(c: Config, run: seq<State>, events: seq<Event>, k: nat, f: Frame)
    requires Run(c, run, events) && k < |events| && events[k] == Receive(f) && (f.Ack? || f.Nak?)
    ensures var s, s' := run[k], run[k + 1];
            && s'.book == s.book.(pending := s.book.pending - {f.id})
            && s'.threads == s.threads && s'.out == s.out && s'.gate == s.gate
            && (forall i :: AwaitsAnswer(s.threads, i, f.id) ==>
                  s'.driver == Delivering(i, OutcomeOf(f, s.counters.frames + 1)))
            && (NobodyAwaits(s.threads, f.id) ==>
                  s' == s.(counters := Counters(s.counters.frames + 1, s.counters.ignored + 1),
                           log := s.log.(received := s.log.received + [f])))
  {
    hide CallStep, SendStep, HandleStep, CloseStep, WriteStep, WindUpStep, Typed, Tasks;
    RunKeeps(c, run, events, k);
    var s := run[k];
    assert StepAt(c, run, events, k);
    ReceivedByDriver(c, s, f, run[k + 1]);
    AnswerTouchesOne(s, f);
    forall i | AwaitsAnswer(s.threads, i, f.id)
      ensures f.id in s.book.pending && s.book.pending[f.id] == i
    {
      assert SenderAlive(s.book, s.driver, f.id, i);
    }
    if f.id in s.book.pending {
      assert Unsettled(s.threads, f.id, s.book.pending[f.id]);
    }
  }

  lemma {:induction false} ReceivedByDriver(c: Config, s: State, f: Frame, s': State)
    requires Step(c, s, Receive(f), s')
    ensures s.driver.Selecting? && s' == AfterReceive(s, f)
  {
    hide AfterReceive;
  }
}
