/** Which sends are let through and which are refused, and why: over every run, and exactly. */
module SessionAdmission {
  import opened Texts
  import opened Frames
  import opened Resources
  import opened Sessions
  import opened SessionClose
  import opened SessionSettlement
  import opened SessionHistory
  import opened SessionLanes
  import opened SessionPermits
  import SessionProgress

  // ----- room in the session's own budget

  predicate RequestRoom(limits: Counts, usage: Counts) {
    usage.requests < limits.requests
  }

  predicate DataRoom(limits: Counts, usage: Counts, bytes: nat) {
    usage.queued < limits.queued && usage.queuedBytes + bytes <= limits.queuedBytes
  }

  predicate ControlRoom(limits: Counts, usage: Counts, bytes: nat) {
    usage.control < limits.control && usage.controlBytes + bytes <= limits.controlBytes
  }

  predicate HandlerRoom(limits: Counts, usage: Counts, bytes: nat) {
    usage.tasks < limits.tasks && usage.taskBytes + bytes <= limits.taskBytes
  }

  lemma {:induction false} AdmitsRoom(limits: Counts, usage: Counts, bytes: nat)
    requires WithinLimits(usage, limits)
    ensures Admits(limits, usage, Permit(Request, bytes)) <==> RequestRoom(limits, usage)
    ensures Admits(limits, usage, Permit(Data, bytes)) <==> DataRoom(limits, usage, bytes)
    ensures Admits(limits, usage, Permit(Control, bytes)) <==> ControlRoom(limits, usage, bytes)
    ensures Admits(limits, usage, Permit(Handler, bytes)) <==> HandlerRoom(limits, usage, bytes)
  {
    assert usage.At(QueuedBytes) <= limits.At(QueuedBytes);
    assert usage.At(ControlBytes) <= limits.At(ControlBytes);
    assert usage.At(HandlerBytes) <= limits.At(HandlerBytes);
  }

  /** The size on the wire of the message of an exchange. */
  function MessageSize(t: Thread): nat
    requires t.task.Call?
  {
    |Wire(Message(t.task.id, t.task.payload))|
  }

  predicate TwelveBytes(t: Thread) {
    t.task.Call? ==> |t.task.id| == ID_LENGTH
  }

  lemma {:induction false} SizeOf(t: Thread)
    requires t.task.Call? && TwelveBytes(t)
    ensures MessageSize(t) == |t.task.payload| + 15
    ensures QueuePermit(t) == Permit(Data, MessageSize(t))
  {
  }

  // ----- why an exchange fails

  /** What is settled of an exchange that needs nothing but to clean up. */
  function Verdict(t: Thread): Option<Outcome> {
    if t.pc.Cleanup? || t.pc.Ended? then Some(t.pc.outcome) else None
  }

  /** This step, and this reason, make exchange `i` fail. */
  predicate Decides(c: Config, s: State, e: Event, i: nat, why: Failure)
    requires i < |s.threads| && s.threads[i].task.Call?
  {
    var t, usage := s.threads[i], s.ledger.usage;
    match why
    case TooLarge => e == ReserveRequest(i) && MessageSize(t) > c.maxMessage
    case Overloaded =>
      || (e == ReserveRequest(i) && MessageSize(t) <= c.maxMessage && !RequestRoom(c.limits, usage))
      || e == ReserveRequestShared(i, false)
      || (e == ReserveQueue(i) && !DataRoom(c.limits, usage, MessageSize(t)))
      || e == ReserveQueueShared(i, false)
      || (e == Push(i) && Destroying(s.out.writer))
    case NotOpen => !s.gate.open && (e == Insert(i) || e == CheckOpen(i))
    case TimedOut => e == Expire(i)
    case Abandoned => e == Abandon(i)
    case SessionClosed => e == Wake(i) && t.task.slot == Some(Failed(SessionClosed))
  }

  /** Past the first check the message is small enough. */
  predicate Fits(c: Config, t: Thread) {
    t.task.Call? && !t.pc.Begin? && !t.pc.Ended? ==> MessageSize(t) <= c.maxMessage
  }

  /** What holds before a step that decides something. */
  ghost predicate Ready(c: Config, s: State, e: Event, i: nat) {
    && CloseInv(s) && WithinLimits(s.ledger.usage, c.limits)
    && i < |s.threads| && s.threads[i].task.Call?
    && TwelveBytes(s.threads[i]) && Fits(c, s.threads[i]) && ThreadTraced(s.log.received, s.threads[i])
    && (e == Push(i) && SendingAt(s, i, Both) ==>
          (HasRoom(c, s.out, s.threads[i]) <==> !Destroying(s.out.writer)))
  }

  /** What a step does to what is settled of exchange `i`. */
  ghost predicate Settles(c: Config, s: State, e: Event, s': State, i: nat, why: Failure)
    requires i < |s.threads| && s.threads[i].task.Call?
  {
    && i < |s'.threads| && s'.threads[i].task.Call?
    && s'.threads[i].task.id == s.threads[i].task.id && s'.threads[i].task.payload == s.threads[i].task.payload
    && Fits(c, s'.threads[i])
    && (Verdict(s.threads[i]).Some? ==> Verdict(s'.threads[i]) == Verdict(s.threads[i]))
    && (Verdict(s.threads[i]).None? ==>
          (Verdict(s'.threads[i]) == Some(Failed(why)) <==> Decides(c, s, e, i, why)))
    && (Decides(c, s, e, i, why) ==> Verdict(s.threads[i]).None?)
  }

  lemma {:induction false} RequestSettles(c: Config, s: State, e: Event, s': State, i: nat, why: Failure)
    requires Ready(c, s, e, i) && CallStep(c, s, e, s')
    requires e == ReserveRequest(i) || e.ReserveRequestShared? || e == Insert(i)
    ensures Settles(c, s, e, s', i, why)
  {
    hide CloseInv, Wire, Taken, GivenBack, Released, ThreadTraced, Admits;
    SizeOf(s.threads[i]);
    AdmitsRoom(c.limits, s.ledger.usage, 0);
  }

  lemma {:induction false} WaitSettles(c: Config, s: State, e: Event, s': State, i: nat, why: Failure)
    requires Ready(c, s, e, i) && CallStep(c, s, e, s')
    requires e != ReserveRequest(i) && !e.ReserveRequestShared? && e != Insert(i)
    ensures Settles(c, s, e, s', i, why)
  {
    hide CloseInv, Wire, Taken, GivenBack, Released, Admits, AfterReserveRequest, AfterInsert, HasRoom, DataRoom,
         RequestRoom;
    if e.SenderGone? {
      SenderPresent(c, s, e, s');
    }
    if e.ReserveRequest? {
      OtherRequest(c, s, e, s', i);
    } else if e.Insert? {
      OtherInsert(c, s, e, s', i);
    }
  }

  lemma {:induction false} OtherRequest(c: Config, s: State, e: Event, s': State, i: nat)
    requires CallStep(c, s, e, s') && e.ReserveRequest? && e.i != i && i < |s.threads|
    ensures i < |s'.threads| && s'.threads[i] == s.threads[i]
  {
    hide Admits, Taken;
  }

  lemma {:induction false} OtherInsert(c: Config, s: State, e: Event, s': State, i: nat)
    requires CallStep(c, s, e, s') && e.Insert? && e.i != i && i < |s.threads|
    ensures i < |s'.threads| && s'.threads[i] == s.threads[i]
  {
    hide Released;
  }

  lemma {:induction false} PushSettles(c: Config, s: State, s': State, i: nat, j: nat, why: Failure)
    requires Ready(c, s, Push(j), i) && SendStep(c, s, Push(j), s')
    ensures Settles(c, s, Push(j), s', i, why)
  {
    hide CloseInv, Wire, Released, ThreadTraced, AfterTask, HasRoom, FramePermit, FrameOf, Through, Resumed;
  }

  lemma {:induction false} ReserveSettles(c: Config, s: State, e: Event, s': State, i: nat, why: Failure)
    requires Ready(c, s, e, i) && SendStep(c, s, e, s') && (e.ReserveQueue? || e.ReserveQueueShared?)
    ensures Settles(c, s, e, s', i, why)
  {
    hide CloseInv, Wire, Taken, GivenBack, ThreadTraced, Admits, HasRoom, FrameOf, FramePermit;
    SizeOf(s.threads[i]);
    AdmitsRoom(c.limits, s.ledger.usage, MessageSize(s.threads[i]));
  }

  lemma {:induction false} CheckSettles(c: Config, s: State, e: Event, s': State, i: nat, why: Failure)
    requires Ready(c, s, e, i) && SendStep(c, s, e, s')
    requires !e.ReserveQueue? && !e.ReserveQueueShared? && !e.Push?
    ensures Settles(c, s, e, s', i, why)
  {
    hide CloseInv, Wire, Released, ThreadTraced, AfterTask, HasRoom, FrameOf, FramePermit;
    SizeOf(s.threads[i]);
  }

  lemma {:induction false} EnqueueSettles(c: Config, s: State, e: Event, s': State, i: nat, why: Failure)
    requires Ready(c, s, e, i) && SendStep(c, s, e, s')
    ensures Settles(c, s, e, s', i, why)
  {
    hide SendStep, Ready, Settles;
    if e.Push? {
      PushSettles(c, s, s', i, e.i, why);
    } else if e.ReserveQueue? || e.ReserveQueueShared? {
      ReserveSettles(c, s, e, s', i, why);
    } else {
      CheckSettles(c, s, e, s', i, why);
    }
  }

  predicate SettlingEvent(e: Event) {
    || e.ReserveRequest? || e.ReserveRequestShared? || e.Insert? || e.CheckOpen? || e.ReserveQueue?
    || e.ReserveQueueShared? || e.Push? || e.Expire? || e.Abandon? || e.Wake?
  }

  /** Thread `i` is the same exchange at the same point, perhaps answered meanwhile. */
  predicate SamePoint(ts: seq<Thread>, ts': seq<Thread>, i: nat) {
    && i < |ts| && i < |ts'| && ts[i].task.Call? && ts'[i].task.Call? && ts'[i].pc == ts[i].pc
    && ts'[i].task.id == ts[i].task.id && ts'[i].task.payload == ts[i].task.payload
  }

  lemma {:induction false} NothingSettles(c: Config, s: State, e: Event, s': State, i: nat, why: Failure)
    requires Ready(c, s, e, i) && SamePoint(s.threads, s'.threads, i) && !SettlingEvent(e)
    ensures Settles(c, s, e, s', i, why)
  {
    hide CloseInv, Wire, ThreadTraced, HasRoom, WithinLimits;
  }

  lemma {:induction false} OthersSettleNothing(c: Config, s: State, e: Event, s': State, i: nat)
    requires HandleStep(c, s, e, s') || DriverStep(s, e, s') || WriterStep(s, e, s')
    requires i < |s.threads| && s.threads[i].task.Call?
    ensures SamePoint(s.threads, s'.threads, i) && !SettlingEvent(e)
  {
    hide HandleStep, ReadStep, CloseStep, WriteStep, WindUpStep, SettlingEvent;
    if HandleStep(c, s, e, s') {
      HandleLeavesCall(c, s, e, s', i);
    } else if ReadStep(s, e, s') {
      ReadLeavesCall(s, e, s', i);
    } else if CloseStep(s, e, s') {
      CloseLeavesCall(s, e, s', i);
    } else {
      WriterKeepsThreads(s, e, s');
      NoCallEvent(s, e, s');
    }
  }

  lemma {:induction false} HandleLeavesCall(c: Config, s: State, e: Event, s': State, i: nat)
    requires HandleStep(c, s, e, s') && i < |s.threads| && s.threads[i].task.Call?
    ensures i < |s'.threads| && s'.threads[i] == s.threads[i] && !SettlingEvent(e)
  {
    hide Admits, TaskPermit, Released, Taken, GivenBack, AfterTask;
  }

  lemma {:induction false} ReadLeavesCall(s: State, e: Event, s': State, i: nat)
    requires ReadStep(s, e, s') && i < |s.threads| && s.threads[i].task.Call?
    ensures SamePoint(s.threads, s'.threads, i) && !SettlingEvent(e)
  {
    hide Released, WellFormed;
  }

  lemma {:induction false} CloseLeavesCall(s: State, e: Event, s': State, i: nat)
    requires CloseStep(s, e, s') && i < |s.threads| && s.threads[i].task.Call?
    ensures SamePoint(s.threads, s'.threads, i) && !SettlingEvent(e)
  {
    hide Released, AllHandled;
  }

  lemma {:induction false} NoCallEvent(s: State, e: Event, s': State)
    requires WriterStep(s, e, s')
    ensures !SettlingEvent(e)
  {
    hide Released, Wire, AfterStartWrite, AfterFlush;
  }

  lemma {:induction false} StepSettles(c: Config, s: State, e: Event, s': State, i: nat, why: Failure)
    requires Ready(c, s, e, i) && Step(c, s, e, s')
    ensures Settles(c, s, e, s', i, why)
  {
    hide CallStep, SendStep, HandleStep, DriverStep, WriterStep, Settles, Ready, SettlingEvent;
    if CallStep(c, s, e, s') {
      if e == ReserveRequest(i) || e.ReserveRequestShared? || e == Insert(i) {
        RequestSettles(c, s, e, s', i, why);
      } else {
        WaitSettles(c, s, e, s', i, why);
      }
    } else if SendStep(c, s, e, s') {
      EnqueueSettles(c, s, e, s', i, why);
    } else {
      IsCall(c, s, e, i);
      OthersSettleNothing(c, s, e, s', i);
      NothingSettles(c, s, e, s', i, why);
    }
  }

  lemma {:induction false} IsCall(c: Config, s: State, e: Event, i: nat)
    requires Ready(c, s, e, i)
    ensures i < |s.threads| && s.threads[i].task.Call?
  {
  }

  lemma {:induction false} RunReady(c: Config, run: seq<State>, events: seq<Event>, k: nat, i: nat)
    requires Run(c, run, events) && k < |events| && WithinLimits(NOTHING, c.limits)
    requires i < |run[k].threads| && run[k].threads[i].task.Call? && TwelveBytes(run[k].threads[i])
    requires Fits(c, run[k].threads[i])
    ensures Ready(c, run[k], events[k], i)
  {
    hide Step, CloseInv, HasRoom, Destroying, ThreadTraced, Fits, TwelveBytes;
    RunKeeps(c, run, events, k);
    RunBalanced(c, run, events, k);
    RunTraced(c, run, events, k);
    if SendingAt(run[k], i, Both) {
      AdmissionImpliesRoom(c, run, events, k, i);
    }
  }

  /** Some step so far made exchange `i` fail for this reason. */
  ghost predicate Decided(c: Config, run: seq<State>, events: seq<Event>, k: nat, i: nat, why: Failure) {
    && |run| == |events| + 1 && k < |run|
    && exists m :: 0 <= m < k && DecidedAt(c, run, events, m, i, why)
  }

  ghost predicate DecidedAt(c: Config, run: seq<State>, events: seq<Event>, m: nat, i: nat, why: Failure) {
    && |run| == |events| + 1 && m < |events|
    && i < |run[m].threads| && run[m].threads[i].task.Call? && Decides(c, run[m], events[m], i, why)
  }

  /** Exactly why a `send` fails. It is too large only if its message is, on the wire; it is refused for
      overload only where a budget had no room or the writer was gone; it is not open only if the session was
      not; it times out only by its deadline. And whatever of this happens to it decides it. */
  lemma {:induction false} FailsExactly(c: Config, run: seq<State>, events: seq<Event>, k: nat, i: nat, why: Failure)
    requires Run(c, run, events) && k < |run| && WithinLimits(NOTHING, c.limits)
    requires i < |run[k].threads| && run[k].threads[i].task.Call? && TwelveBytes(run[k].threads[i])
    ensures Verdict(run[k].threads[i]) == Some(Failed(why)) <==> Decided(c, run, events, k, i, why)
    ensures Fits(c, run[k].threads[i])
    ensures Verdict(run[k].threads[i]).None? ==> !Decided(c, run, events, k, i, why)
  {
    hide Step, Ready, Fits, TwelveBytes, Decides, Verdict, Decided;
    if k == 0 {
      return;
    }
    var s, e, s' := run[k - 1], events[k - 1], run[k];
    assert StepAt(c, run, events, k - 1);
    if i < |s.threads| {
      SameCall(c, run, events, k - 1, i);
      FailsExactly(c, run, events, k - 1, i, why);
      RunReady(c, run, events, k - 1, i);
      StepSettles(c, s, e, s', i, why);
      DecidedNow(c, run, events, k - 1, i, why);
    } else {
      NewCall(c, run, events, k - 1, i, why);
    }
  }

  lemma {:induction false} DecidedNow(c: Config, run: seq<State>, events: seq<Event>, k: nat, i: nat, why: Failure)
    requires |run| == |events| + 1 && k < |events|
    ensures Decided(c, run, events, k + 1, i, why)
            <==> Decided(c, run, events, k, i, why) || DecidedAt(c, run, events, k, i, why)
  {
    hide DecidedAt;
  }

  /** A new exchange has only begun, and no earlier step was about it. */
  lemma {:induction false} NewCall(c: Config, run: seq<State>, events: seq<Event>, k: nat, i: nat, why: Failure)
    requires Run(c, run, events) && k < |events|
    requires |run[k].threads| <= i < |run[k + 1].threads| && run[k + 1].threads[i].task.Call?
    ensures Verdict(run[k + 1].threads[i]).None? && Fits(c, run[k + 1].threads[i])
    ensures !Decided(c, run, events, k + 1, i, why)
  {
    hide Step, Decides;
    OneStep(c, run, events, k);
    StepBegins(c, run[k], events[k], run[k + 1], i);
    if Decided(c, run, events, k + 1, i, why) {
      var m :| 0 <= m < k + 1 && DecidedAt(c, run, events, m, i, why);
      SettledOnce(c, run, events, m, k, i);
    }
  }

  lemma {:induction false} CallBegins(c: Config, s: State, e: Event, s': State, i: nat)
    requires CallStep(c, s, e, s') && |s.threads| <= i < |s'.threads|
    ensures s'.threads[i].pc == Begin
  {
    hide Admits, Taken, GivenBack, Released;
  }

  lemma {:induction false} SendBegins(c: Config, s: State, e: Event, s': State, i: nat)
    requires SendStep(c, s, e, s') && |s.threads| <= i < |s'.threads|
    ensures !s'.threads[i].task.Call?
  {
    hide Admits, Taken, GivenBack, Released, HasRoom, AfterTask, FrameOf, Wire;
  }

  lemma {:induction false} HandleBegins(c: Config, s: State, e: Event, s': State)
    requires HandleStep(c, s, e, s')
    ensures |s'.threads| == |s.threads|
  {
    hide Admits, TaskPermit, Released, Taken, GivenBack, AfterTask;
  }

  lemma {:induction false} ReadBegins(s: State, e: Event, s': State, i: nat)
    requires ReadStep(s, e, s') && |s.threads| <= i < |s'.threads|
    ensures !s'.threads[i].task.Call?
  {
    hide Released, WellFormed;
  }

  lemma {:induction false} CloseBegins(s: State, e: Event, s': State)
    requires CloseStep(s, e, s')
    ensures |s'.threads| == |s.threads|
  {
    hide Released, AllHandled;
  }

  lemma {:induction false} StepBegins(c: Config, s: State, e: Event, s': State, i: nat)
    requires Step(c, s, e, s') && |s.threads| <= i < |s'.threads| && s'.threads[i].task.Call?
    ensures s'.threads[i].pc == Begin
  {
    hide CallStep, SendStep, HandleStep, ReadStep, CloseStep, WriterStep;
    if CallStep(c, s, e, s') {
      CallBegins(c, s, e, s', i);
    } else if SendStep(c, s, e, s') {
      SendBegins(c, s, e, s', i);
    } else if HandleStep(c, s, e, s') {
      HandleBegins(c, s, e, s');
    } else if ReadStep(s, e, s') {
      ReadBegins(s, e, s', i);
    } else if CloseStep(s, e, s') {
      CloseBegins(s, e, s');
    } else {
      WriterKeepsThreads(s, e, s');
    }
  }

  lemma {:induction false} SameCall(c: Config, run: seq<State>, events: seq<Event>, k: nat, i: nat)
    requires Run(c, run, events) && k < |events| && i < |run[k].threads|
    requires i < |run[k + 1].threads| && run[k + 1].threads[i].task.Call? && TwelveBytes(run[k + 1].threads[i])
    ensures run[k].threads[i].task.Call? && TwelveBytes(run[k].threads[i])
  {
    hide Step, CloseInv;
    RunKeeps(c, run, events, k);
    OneStep(c, run, events, k);
    ThreadEvolves(c, run[k], events[k], run[k + 1], i);
  }

  lemma {:induction false} OneStep(c: Config, run: seq<State>, events: seq<Event>, k: nat)
    requires Run(c, run, events) && k < |events|
    ensures Step(c, run[k], events[k], run[k + 1])
  {
    hide Step;
    assert StepAt(c, run, events, k);
  }

  // ----- one admission at a time

  /** In every run, the first section of a `send`: too large exactly if its message is; otherwise overloaded
      exactly if the session has no request left; otherwise the exchange holds one request more and goes on. */
  lemma {:induction false} RequestDecided(c: Config, run: seq<State>, events: seq<Event>, k: nat, i: nat)
    requires Run(c, run, events) && k < |events| && WithinLimits(NOTHING, c.limits)
    requires events[k] == ReserveRequest(i) && i < |run[k].threads| && TwelveBytes(run[k].threads[i])
    ensures run[k].threads[i].task.Call? && |run[k + 1].threads| == |run[k].threads|
    ensures var s, s', t, t' := run[k], run[k + 1], run[k].threads[i], run[k + 1].threads[i];
            && (t'.pc == Ended(Failed(TooLarge)) <==> MessageSize(t) > c.maxMessage)
            && (t'.pc == Ended(Failed(Overloaded))
                <==> MessageSize(t) <= c.maxMessage && s.ledger.usage.requests == c.limits.requests)
            && (t'.pc == RequestOwn
                <==> MessageSize(t) <= c.maxMessage && s.ledger.usage.requests < c.limits.requests)
            && t' == t.(pc := t'.pc)
            && s' == s.(threads := s.threads[i := t'],
                        ledger := s.ledger.(usage := s.ledger.usage.(
                          requests := s.ledger.usage.requests + if t'.pc.RequestOwn? then 1 else 0)))
  {
    hide Wire;
    assert StepAt(c, run, events, k);
    RunBalanced(c, run, events, k);
    RequestStep(c, run[k], i, run[k + 1]);
  }

  lemma {:induction false} RequestStep(c: Config, s: State, i: nat, s': State)
    requires Step(c, s, ReserveRequest(i), s') && WithinLimits(s.ledger.usage, c.limits)
    requires i < |s.threads| && TwelveBytes(s.threads[i])
    ensures s.threads[i].task.Call? && |s'.threads| == |s.threads|
    ensures var t, t' := s.threads[i], s'.threads[i];
            && (t'.pc == Ended(Failed(TooLarge)) <==> MessageSize(t) > c.maxMessage)
            && (t'.pc == Ended(Failed(Overloaded))
                <==> MessageSize(t) <= c.maxMessage && s.ledger.usage.requests == c.limits.requests)
            && (t'.pc == RequestOwn
                <==> MessageSize(t) <= c.maxMessage && s.ledger.usage.requests < c.limits.requests)
            && t' == t.(pc := t'.pc)
            && s' == s.(threads := s.threads[i := t'],
                        ledger := s.ledger.(usage := s.ledger.usage.(
                          requests := s.ledger.usage.requests + if t'.pc.RequestOwn? then 1 else 0)))
  {
    hide SendStep, HandleStep, DriverStep, WriterStep, Wire;
    IsCallStep(c, s, i, s');
    assert s.ledger.usage.At(PendingRequests) <= c.limits.At(PendingRequests);
    SizeOf(s.threads[i]);
  }

  lemma {:induction false} IsCallStep(c: Config, s: State, i: nat, s': State)
    requires Step(c, s, ReserveRequest(i), s')
    ensures CallStep(c, s, ReserveRequest(i), s')
  {
    hide AfterReserveRequest;
  }

  /** In every run, the first section of handling a message: it is refused exactly if there is no room for its
      handler, with the problem given; otherwise its handling holds the permit and goes on. */
  lemma {:induction false} HandlingDecided(c: Config, run: seq<State>, events: seq<Event>, k: nat, i: nat,
                                           problem: Text)
    requires Run(c, run, events) && k < |events| && WithinLimits(NOTHING, c.limits)
    requires events[k] == ReserveTask(i, problem)
    ensures i < |run[k].threads| && run[k].threads[i].task.Handle? && |run[k + 1].threads| == |run[k].threads|
    ensures var s, s', t, t' := run[k], run[k + 1], run[k].threads[i], run[k + 1].threads[i];
            var bytes := |t.task.payload|;
            if HandlerRoom(c.limits, s.ledger.usage, bytes) then
              && t' == t.(pc := TaskOwn)
              && s' == s.(threads := s.threads[i := t'],
                          ledger := s.ledger.(usage := s.ledger.usage.(tasks := s.ledger.usage.tasks + 1,
                                                                       taskBytes := s.ledger.usage.taskBytes + bytes)))
            else
              && t'.task.Handle? && t'.task.reply.Nak? && t'.task.reply.id == t.task.id
              && SameReply(Some(problem), t'.task.reply.problem)
              && t' == Thread(t.task.(reply := t'.task.reply), t.sent, Sending(Start))
              && s' == s.(threads := s.threads[i := t'])
  {
    hide Wire;
    assert StepAt(c, run, events, k);
    RunBalanced(c, run, events, k);
    HandlingStep(c, run[k], i, problem, run[k + 1]);
    AdmitsRoom(c.limits, run[k].ledger.usage, |run[k].threads[i].task.payload|);
  }

  lemma {:induction false} HandlingStep(c: Config, s: State, i: nat, problem: Text, s': State)
    requires Step(c, s, ReserveTask(i, problem), s')
    ensures HandleAt(s, i, Admitting) && s' == AfterReserveTask(c, s, i, problem)
  {
    hide AfterReserveTask;
  }

  /** Where a frame leads whose `enqueue` fails: a send cleans up with the reason, and who must send a reply or a
      heartbeat goes on to close the session. */
  predicate GivesUp(t: Thread, t': Thread, why: Failure) {
    t' == t.(pc := if t.task.Call? then Cleanup(Failed(why)) else MustClose)
  }

  /** In every run, the check of `enqueue`, for messages, replies and heartbeats alike: it fails in a session
      that is not open, and for a frame that is too large, and passes otherwise. */
  lemma {:induction false} CheckDecided(c: Config, run: seq<State>, events: seq<Event>, k: nat, i: nat)
    requires Run(c, run, events) && k < |events| && events[k] == CheckOpen(i)
    ensures i < |run[k].threads| && run[k].threads[i].pc == Sending(Start) && |run[k + 1].threads| == |run[k].threads|
    ensures var s, s', t, t' := run[k], run[k + 1], run[k].threads[i], run[k + 1].threads[i];
            && s' == s.(threads := s.threads[i := t'])
            && if !s.gate.open then GivesUp(t, t', NotOpen)
               else if |Wire(Outgoing(t))| > c.maxMessage then GivesUp(t, t', TooLarge)
               else t' == t.(pc := Sending(Checked))
  {
    hide Wire;
    assert StepAt(c, run, events, k);
    CheckStep(c, run[k], i, run[k + 1]);
  }

  lemma {:induction false} CheckStep(c: Config, s: State, i: nat, s': State)
    requires Step(c, s, CheckOpen(i), s')
    ensures SendingAt(s, i, Start) && s' == AfterCheckOpen(c, s, i)
  {
    hide AfterCheckOpen;
  }

  /** In every run, its reservation: it fails exactly if the lane of the frame has no room for it. */
  lemma {:induction false} ReserveDecided(c: Config, run: seq<State>, events: seq<Event>, k: nat, i: nat)
    requires Run(c, run, events) && k < |events| && WithinLimits(NOTHING, c.limits) && events[k] == ReserveQueue(i)
    ensures i < |run[k].threads| && |run[k + 1].threads| == |run[k].threads|
    ensures var s, s', t, t' := run[k], run[k + 1], run[k].threads[i], run[k + 1].threads[i];
            var size, usage := |Wire(Outgoing(t))|, s.ledger.usage;
            && s' == s.(threads := s.threads[i := t'], ledger := s'.ledger)
            && if (if t.task.Call? then DataRoom(c.limits, usage, size) else ControlRoom(c.limits, usage, size)) then
                 && t' == t.(pc := Sending(Own))
                 && s'.ledger == s.ledger.(usage :=
                      if t.task.Call? then usage.(queued := usage.queued + 1, queuedBytes := usage.queuedBytes + size)
                      else usage.(control := usage.control + 1, controlBytes := usage.controlBytes + size))
               else GivesUp(t, t', Overloaded) && s'.ledger == s.ledger
  {
    hide Wire;
    assert StepAt(c, run, events, k);
    RunBalanced(c, run, events, k);
    ReserveStep(c, run[k], i, run[k + 1]);
    AdmitsRoom(c.limits, run[k].ledger.usage, |Wire(Outgoing(run[k].threads[i]))|);
  }

  lemma {:induction false} ReserveStep(c: Config, s: State, i: nat, s': State)
    requires Step(c, s, ReserveQueue(i), s')
    ensures SendingAt(s, i, Checked) && s' == AfterReserveQueue(c, s, i)
  {
    hide AfterReserveQueue;
  }

  /** In every run, its `try_send`: it fails exactly if the writer is gone. */
  lemma {:induction false} PushDecided(c: Config, run: seq<State>, events: seq<Event>, k: nat, i: nat)
    requires Run(c, run, events) && k < |events| && WithinLimits(NOTHING, c.limits) && events[k] == Push(i)
    ensures i < |run[k].threads| && |run[k + 1].threads| == |run[k].threads|
    ensures GivesUp(run[k].threads[i], run[k + 1].threads[i], Overloaded) <==> Destroying(run[k].out.writer)
    ensures run[k + 1].threads[i].sent <==> !Destroying(run[k].out.writer)
  {
    hide Wire, CloseInv, HasRoom;
    assert StepAt(c, run, events, k);
    PushStep(c, run[k], i, run[k + 1]);
    AdmissionImpliesRoom(c, run, events, k, i);
    NotYetSent(c, run, events, k, i);
  }

  lemma {:induction false} PushStep(c: Config, s: State, i: nat, s': State)
    requires Step(c, s, Push(i), s')
    ensures SendingAt(s, i, Both) && s' == AfterPush(c, s, i)
  {
    hide AfterPush;
  }

  lemma {:induction false} NotYetSent(c: Config, run: seq<State>, events: seq<Event>, k: nat, i: nat)
    requires Run(c, run, events) && k < |run| && i < |run[k].threads| && run[k].threads[i].pc.Sending?
    ensures !run[k].threads[i].sent
  {
    hide Step, Phases, Tasks, Linked, UniqueIds;
    RunKeeps(c, run, events, k);
    assert PcFits(run[k].threads[i]);
  }

  /** In every run, an invalid frame is ignored: it changes one counter, and closes nothing. */
  lemma {:induction false} InvalidIgnored(c: Config, run: seq<State>, events: seq<Event>, k: nat)
    requires Run(c, run, events) && k < |events| && events[k] == ReceiveInvalid
    ensures run[k + 1]
            == run[k].(counters := run[k].counters.(ignored := run[k].counters.ignored + 1))
  {
    assert StepAt(c, run, events, k);
    InvalidStep(c, run[k], run[k + 1]);
  }

  lemma {:induction false} InvalidStep(c: Config, s: State, s': State)
    requires Step(c, s, ReceiveInvalid, s')
    ensures s' == s.(counters := s.counters.(ignored := s.counters.ignored + 1))
  {
  }

  /** In every run, a heartbeat received changes nothing of exchanges, handlers, queues and permits; what it does
      to the timers is modelled in module `Heartbeats`. */
  lemma {:induction false} HeartbeatCounted(c: Config, run: seq<State>, events: seq<Event>, k: nat, interval: nat)
    requires Run(c, run, events) && k < |events| && events[k] == Receive(Heartbeat(interval))
    ensures run[k + 1]
            == run[k].(counters := run[k].counters.(frames := run[k].counters.frames + 1),
                       log := run[k].log.(received := run[k].log.received + [Heartbeat(interval)]))
  {
    assert StepAt(c, run, events, k);
    ReceivedByDriver(c, run[k], Heartbeat(interval), run[k + 1]);
  }

  /** An oversized frame closes the session: it is never open again, and gets to its end by its own steps. */
  lemma {:induction false} OversizedCloses(c: Config, run: seq<State>, events: seq<Event>, k: nat, m: nat)
    returns (more: seq<State>, steps: seq<Event>)
    requires Run(c, run, events) && k < m < |run| && events[k] == ReceiveOversized
    ensures !run[m].gate.open
    ensures |more| == |steps| + 1 && more[0] == run[m] && more[|steps|].gate.closed
    ensures forall n :: 0 <= n < |steps| ==> StepAt(c, more, steps, n) && SessionProgress.OwnWork(steps[n])
  {
    hide Step, CloseInv, SessionProgress.OwnWork;
    assert StepAt(c, run, events, k);
    OversizedStep(c, run[k], run[k + 1]);
    GateMonotone(c, run, events, k + 1, m);
    RunKeeps(c, run, events, m);
    more, steps := SessionProgress.CloseCompletes(c, run[m]);
  }

  lemma {:induction false} OversizedStep(c: Config, s: State, s': State)
    requires Step(c, s, ReceiveOversized, s')
    ensures !s'.gate.open
  {
  }

  // ----- what closes a session

  /** This event leaves a session shut: `close()` by anyone, an oversized frame, a reply or heartbeat that could
      not be queued, a failed write, or the end of reading. */
  predicate Shuts(e: Event) {
    e.Close? || e.ReceiveOversized? || e.CloseAfterFailure? || e.CloseAfterWrite? || e.StopReading? || e.Drain?
  }

  lemma {:induction false} ReadShuts(s: State, e: Event, s': State)
    requires ReadStep(s, e, s')
    ensures s'.gate.open == (s.gate.open && !Shuts(e))
  {
    hide Released, Completed, WellFormed;
  }

  lemma {:induction false} CloseShuts(s: State, e: Event, s': State)
    requires CloseStep(s, e, s')
    ensures s'.gate.open == (s.gate.open && !Shuts(e))
  {
    hide Released, Completed, AllHandled;
  }

  lemma {:induction false} WriterShuts(s: State, e: Event, s': State)
    requires WriterStep(s, e, s')
    ensures s'.gate.open == (s.gate.open && !Shuts(e))
  {
    hide Released, SinkDropped, DroppedFrame;
  }

  lemma {:induction false} CallShuts(c: Config, s: State, e: Event, s': State)
    requires CallStep(c, s, e, s')
    ensures s'.gate.open == (s.gate.open && !Shuts(e))
  {
    hide Admits, Released, Taken, GivenBack, SenderAlive, FreshId;
  }

  lemma {:induction false} SendShuts(c: Config, s: State, e: Event, s': State)
    requires SendStep(c, s, e, s')
    ensures s'.gate.open == (s.gate.open && !Shuts(e))
  {
    hide Admits, HasRoom, Released, Taken, GivenBack, FramePermit, FrameOf, AfterTask, Through, Resumed;
  }

  lemma {:induction false} HandleShuts(c: Config, s: State, e: Event, s': State)
    requires HandleStep(c, s, e, s')
    ensures s'.gate.open == (s.gate.open && !Shuts(e))
  {
    hide Admits, Released, Taken, GivenBack, TaskPermit, AfterTask, Through, Resumed;
  }

  lemma {:induction false} StepShuts(c: Config, s: State, e: Event, s': State)
    requires Step(c, s, e, s')
    ensures s'.gate.open == (s.gate.open && !Shuts(e))
  {
    hide CallStep, SendStep, HandleStep, ReadStep, CloseStep, WriterStep, Shuts;
    if ReadStep(s, e, s') {
      ReadShuts(s, e, s');
    } else if CloseStep(s, e, s') {
      CloseShuts(s, e, s');
    } else if WriterStep(s, e, s') {
      WriterShuts(s, e, s');
    } else if CallStep(c, s, e, s') {
      CallShuts(c, s, e, s');
    } else if SendStep(c, s, e, s') {
      SendShuts(c, s, e, s');
    } else {
      HandleShuts(c, s, e, s');
    }
  }

  /** In every run a session is open exactly until the first event that shuts it. Nothing else does: no refused
      send, no invalid frame, no NAK, no deadline of a send or handler, and no end of the peer's stream before the
      read loop has seen it. */
  lemma {:induction false} OpenExactly(c: Config, run: seq<State>, events: seq<Event>, k: nat)
    requires Run(c, run, events) && k < |run|
    ensures run[k].gate.open <==> forall n :: 0 <= n < k ==> !Shuts(events[n])
  {
    hide Step, Shuts;
    if k > 0 {
      OpenExactly(c, run, events, k - 1);
      OneStep(c, run, events, k - 1);
      StepShuts(c, run[k - 1], events[k - 1], run[k]);
    }
  }
}
