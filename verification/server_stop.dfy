/** The accept loop of a bare server, its connection tasks with their sessions, and `ServerHandle::stop`
    (`src/server.rs`): a hook may await `stop` from inside the very task that `stop` would wait for. */
module ServerStop {
  import opened Texts

  /** The published progress of the accept loop. */
  class ConnectionTasks {
    var accepting: bool
    var tasks: set<nat>

    constructor ()
      ensures accepting && tasks == {}
    {
      accepting, tasks := true, {};
    }

    method Insert(id: nat)
      modifies this`tasks
      ensures tasks == old(tasks) + {id}
    {
      tasks := tasks + {id};
    }

    /** Called for a joined task, whether it returned, was aborted or failed. */
    method Finished(id: nat)
      modifies this`tasks
      ensures tasks == old(tasks) - {id}
    {
      tasks := tasks - {id};
    }

    method StopAccepting()
      modifies this`accepting
      ensures !accepting
    {
      accepting := false;
    }

    /** The end of the accept loop: `joined` are the remaining tasks, in the order in which they finish. */
    method Drain(joined: seq<nat>)
      modifies this
      ensures !accepting && tasks == old(tasks) - set id | id in joined
      ensures (forall id :: id in old(tasks) ==> id in joined) ==> tasks == {}
    {
      StopAccepting();
      for i := 0 to |joined|
        invariant !accepting && tasks == old(tasks) - set id | id in joined[..i]
      {
        Finished(joined[i]);
        assert joined[..i + 1] == joined[..i] + [joined[i]];
      }
      assert joined[..|joined|] == joined;
    }

    /** `finished_except`, which looks at every key. */
    method FinishedExcept(caller: nat) returns (finished: bool)
      ensures finished <==> !accepting && forall id :: id in tasks ==> id == caller
    {
      if accepting {
        return false;
      }
      var rest := tasks;
      while rest != {}
        invariant rest <= tasks
        invariant forall id :: id in tasks && id !in rest ==> id == caller
        decreases |rest|
      {
        var id :| id in rest;
        if id != caller {
          return false;
        }
        rest := rest - {id};
      }
      return true;
    }
  }

  // ----- the accept loop, its tasks and a call of stop

  /** A connection task. `Gated`: spawned but held back. `Checked`: past the test of `stopped`. `Serving`: its
      session is registered and the connect hook may run. `Disconnected`: removed again, the disconnect hook
      may run. */
  datatype TaskPc = Gated | Handshaking | Checked | Started | Serving | Disconnected | Ended | Joined

  datatype SessionPhase = Absent | Open | Shut | Closed

  datatype Task = Task(endpoint: nat, pc: TaskPc, session: SessionPhase)

  datatype LoopPc = Accepting | Inserting(task: nat) | Releasing(task: nat) | Draining | Stopped

  /** `stop`: from `Collecting` to `Awaiting` it is inside `close_sessions`. `Abandoned`: the hook that
      awaited it was dropped. */
  datatype StopPc =
    | NotCalled
    | Called
    | Marked
    | Collecting(next: nat)
    | Closing(todo: set<nat>)
    | Awaiting(todo: set<nat>)
    | AwaitingOthers
    | AwaitingLoop
    | Done
    | Abandoned

  /** `within` is the task from whose hook `stop` was called, if any, and `caller` what `stop` finds out about
      it. `upto` and `collected` are the endpoints and sessions that `close_sessions` looks at. */
  datatype Call = Call(pc: StopPc, within: Option<nat>, caller: Option<nat>, upto: nat, collected: set<nat>)

  datatype Server = Server(
    endpoints: nat,
    accepting: bool,
    tracked: set<nat>,
    tasks: seq<Task>,
    loop: LoopPc,
    stopped: bool,
    signalled: bool,
    call: Call)

  datatype Event =
    | AddEndpoint
    | Accept
    | Insert
    | Release
    | SeeStop
    | Join(task: nat)
    | LoopEnds
    | Check(task: nat, endpoint: nat)
    | Create(task: nat)
    | Register(task: nat)
    | Shut(task: nat)
    | Publish(task: nat)
    | Remove(task: nat)
    | DropHook(task: nat)
    | Return(task: nat)
    | Abort(task: nat)
    | CallStop(within: Option<nat>)
    | MarkStopped
    | Signal
    | Collect
    | BeginClose
    | CloseOne(task: nat)
    | BeginAwait
    | SawClosed(task: nat)
    | BeginWait
    | StopReturns

  predicate TaskAt(s: Server, t: nat, pc: TaskPc) {
    t < |s.tasks| && s.tasks[t].pc == pc
  }

  predicate InProgress(pc: StopPc) {
    !pc.NotCalled? && !pc.Done? && !pc.Abandoned?
  }

  /** The hook of task `t` is waiting for `stop`. */
  predicate Blocked(s: Server, t: nat) {
    s.call.within == Some(t) && InProgress(s.call.pc)
  }

  function Moved(s: Server, t: nat, pc: TaskPc): Server
    requires t < |s.tasks|
  {
    s.(tasks := s.tasks[t := s.tasks[t].(pc := pc)])
  }

  function Phased(s: Server, t: nat, session: SessionPhase): Server
    requires t < |s.tasks|
  {
    s.(tasks := s.tasks[t := s.tasks[t].(session := session)])
  }

  function AfterShut(session: SessionPhase): SessionPhase {
    if session.Open? then SessionPhase.Shut else session
  }

  function At(s: Server, pc: StopPc): Server {
    s.(call := s.call.(pc := pc))
  }

  predicate LoopStep(s: Server, e: Event, s': Server) {
    match e
    case AddEndpoint => s' == s.(endpoints := s.endpoints + 1)
    case Accept =>
      s.loop.Accepting? && s' == s.(tasks := s.tasks + [Task(0, Gated, Absent)], loop := Inserting(|s.tasks|))
    case Insert =>
      s.loop.Inserting? && s' == s.(tracked := s.tracked + {s.loop.task}, loop := Releasing(s.loop.task))
    case Release =>
      && s.loop.Releasing? && s.loop.task < |s.tasks|
      && s' == (if s.tasks[s.loop.task].pc.Gated? then Moved(s, s.loop.task, Handshaking) else s)
               .(loop := Accepting)
    case SeeStop => s.loop.Accepting? && s.signalled && s' == s.(loop := Draining, accepting := false)
    case Join(t) =>
      && (s.loop.Accepting? || s.loop.Draining?) && TaskAt(s, t, Ended)
      && s' == Moved(s, t, Joined).(tracked := s.tracked - {t})
    case LoopEnds =>
      && s.loop.Draining? && (forall t :: 0 <= t < |s.tasks| ==> s.tasks[t].pc.Joined?)
      && s' == s.(loop := Stopped)
    case _ => false
  }

  predicate TaskStep(s: Server, e: Event, s': Server) {
    match e
    case Check(t, endpoint) =>
      && TaskAt(s, t, Handshaking) && !s.stopped && endpoint < s.endpoints
      && s' == s.(tasks := s.tasks[t := Task(endpoint, Checked, Absent)])
    case Create(t) => TaskAt(s, t, Checked) && s' == Phased(Moved(s, t, Started), t, SessionPhase.Open)
    case Register(t) => TaskAt(s, t, Started) && s' == Moved(s, t, Serving)
    case Shut(t) => t < |s.tasks| && s.tasks[t].session.Open? && s' == Phased(s, t, SessionPhase.Shut)
    case Publish(t) => t < |s.tasks| && s.tasks[t].session.Shut? && s' == Phased(s, t, SessionPhase.Closed)
    case Remove(t) =>
      && TaskAt(s, t, Serving) && s.tasks[t].session.Closed? && !Blocked(s, t)
      && s' == Moved(s, t, Disconnected)
    case DropHook(t) =>
      && TaskAt(s, t, Serving) && s.tasks[t].session.Closed? && s.call.within == Some(t) && Awaits(s.call.pc)
      && s' == At(s, Abandoned)
    case Return(t) =>
      && (TaskAt(s, t, Handshaking) || (TaskAt(s, t, Disconnected) && !Blocked(s, t)))
      && s' == Moved(s, t, Ended)
    case Abort(t) =>
      && s.call.pc.AwaitingOthers? && s.call.caller != Some(t) && t in s.tracked && t < |s.tasks|
      && Abortable(s.tasks[t].pc)
      && s' == Phased(Moved(s, t, Ended), t, AfterShut(s.tasks[t].session))
    case _ => false
  }

  /** Where `stop` may be dropped: a hook is dropped together with all that it awaits. */
  predicate Awaits(pc: StopPc) {
    pc.Collecting? || pc.Awaiting? || pc.AwaitingOthers?
  }

  /** The tasks are aborted where they await something; the drop of `SessionCleanup` then closes the session. */
  predicate Abortable(pc: TaskPc) {
    pc.Gated? || pc.Handshaking? || pc.Serving? || pc.Disconnected?
  }

  function RegisteredAt(s: Server, endpoint: nat): set<nat> {
    set t | 0 <= t < |s.tasks| && s.tasks[t].pc.Serving? && s.tasks[t].endpoint == endpoint
  }

  predicate StopStep(s: Server, e: Event, s': Server) {
    var c := s.call;
    match e
    case CallStop(within) =>
      && c.pc.NotCalled?
      && (within.Some? ==> TaskAt(s, within.value, Serving) || TaskAt(s, within.value, Disconnected))
      && s' == s.(call := Call(Called, within,
                               if within.Some? && within.value in s.tracked then within else None, 0, {}))
    case MarkStopped => c.pc.Called? && s' == At(s, Marked).(stopped := true)
    case Signal =>
      c.pc.Marked? && s' == s.(signalled := true, call := c.(pc := Collecting(0), upto := s.endpoints))
    case Collect =>
      && c.pc.Collecting? && c.pc.next < c.upto
      && s' == s.(call := c.(pc := Collecting(c.pc.next + 1), collected := c.collected + RegisteredAt(s, c.pc.next)))
    case BeginClose => c.pc == Collecting(c.upto) && s' == At(s, Closing(c.collected))
    case CloseOne(t) =>
      && c.pc.Closing? && t in c.pc.todo && t < |s.tasks|
      && s' == At(Phased(s, t, AfterShut(s.tasks[t].session)), Closing(c.pc.todo - {t}))
    case BeginAwait => c.pc == Closing({}) && s' == At(s, Awaiting(c.collected))
    case SawClosed(t) =>
      && c.pc.Awaiting? && t in c.pc.todo && t < |s.tasks| && s.tasks[t].session.Closed?
      && s' == At(s, Awaiting(c.pc.todo - {t}))
    case BeginWait =>
      c.pc == Awaiting({}) && s' == At(s, if c.caller.Some? then AwaitingOthers else AwaitingLoop)
    case StopReturns =>
      && (|| (c.pc.AwaitingOthers? && c.caller.Some? && Others(s, c.caller.value))
          || (c.pc.AwaitingLoop? && s.loop.Stopped?))
      && s' == At(s, Done)
    case _ => false
  }

  predicate Others(s: Server, caller: nat) {
    !s.accepting && forall id :: id in s.tracked ==> id == caller
  }

  predicate Step(s: Server, e: Event, s': Server) {
    LoopStep(s, e, s') || TaskStep(s, e, s') || StopStep(s, e, s')
  }

  const BOUND := Server(0, true, {}, [], Accepting, false, false, Call(NotCalled, None, None, 0, {}))

  predicate StepAt(run: seq<Server>, events: seq<Event>, k: nat)
    requires k < |events| && |run| == |events| + 1
  {
    Step(run[k], events[k], run[k + 1])
  }

  ghost predicate Steps(run: seq<Server>, events: seq<Event>) {
    |run| == |events| + 1 && forall k :: 0 <= k < |events| ==> StepAt(run, events, k)
  }

  ghost predicate Run(run: seq<Server>, events: seq<Event>) {
    Steps(run, events) && run[0] == BOUND
  }

  // ----- what every step keeps

  predicate Runs(pc: TaskPc) {
    !pc.Gated? && !pc.Ended? && !pc.Joined?
  }

  /** A task is tracked from before it runs until it is joined. */
  ghost predicate Tracked(s: Server) {
    && (forall t :: t in s.tracked ==> t < |s.tasks| && !s.tasks[t].pc.Joined?)
    && (forall t :: 0 <= t < |s.tasks| && !s.tasks[t].pc.Joined? ==> t in s.tracked || s.loop == Inserting(t))
    && (s.loop.Inserting? || s.loop.Releasing? ==> s.loop.task < |s.tasks|)
    && (s.loop.Inserting? ==> s.loop.task !in s.tracked && s.tasks[s.loop.task].pc.Gated?)
    && (forall t :: 0 <= t < |s.tasks| && s.tasks[t].pc.Gated? ==> s.loop == Inserting(t) || s.loop == Releasing(t))
  }

  ghost predicate LoopInv(s: Server) {
    && (s.accepting <==> !s.loop.Draining? && !s.loop.Stopped?)
    && (s.loop.Stopped? ==> forall t :: 0 <= t < |s.tasks| ==> s.tasks[t].pc.Joined?)
  }

  /** A task and its session: no task that has ended leaves one open. */
  predicate TaskInv(s: Server, task: Task) {
    && (task.pc.Gated? || task.pc.Handshaking? || task.pc.Checked? ==> task.session.Absent?)
    && (task.pc.Started? || task.pc.Serving? ==> !task.session.Absent?)
    && (task.pc.Disconnected? ==> task.session.Closed?)
    && (task.pc.Ended? || task.pc.Joined? ==> !task.session.Open?)
    && (task.pc.Checked? || task.pc.Started? || task.pc.Serving? ==> task.endpoint < s.endpoints)
  }

  ghost predicate TasksInv(s: Server) {
    forall t :: 0 <= t < |s.tasks| ==> TaskInv(s, s.tasks[t])
  }

  predicate PastRegistration(pc: TaskPc) {
    pc.Serving? || pc.Disconnected? || pc.Ended? || pc.Joined?
  }

  /** The collected sessions, by the progress of `close_sessions`. */
  ghost predicate CollectedInv(s: Server) {
    var c := s.call;
    && (forall t :: t in c.collected ==>
          t < |s.tasks| && PastRegistration(s.tasks[t].pc) && !s.tasks[t].session.Absent?)
    && (c.pc.NotCalled? || c.pc.Called? || c.pc.Marked? ==> c.collected == {})
    && (c.pc.Collecting? ==> c.pc.next <= c.upto <= s.endpoints)
    && (c.pc.Closing? ==>
          && c.pc.todo <= c.collected
          && forall t :: t in c.collected - c.pc.todo ==> !s.tasks[t].session.Open?)
    && (c.pc.Awaiting? ==>
          && c.pc.todo <= c.collected
          && (forall t :: t in c.collected ==> !s.tasks[t].session.Open?)
          && forall t :: t in c.collected - c.pc.todo ==> s.tasks[t].session.Closed?)
    && (c.pc.AwaitingOthers? || c.pc.AwaitingLoop? || c.pc.Done? ==>
          forall t :: t in c.collected ==> s.tasks[t].session.Closed?)
  }

  /** The task whose hook awaits `stop`: `stop` knows it, and closes its session if that still is registered. */
  ghost predicate CallerInv(s: Server) {
    var c := s.call;
    && (!c.pc.NotCalled? ==> c.caller == c.within)
    && (c.within.Some? && InProgress(c.pc) ==>
          var t := c.within.value;
          && t < |s.tasks| && (s.tasks[t].pc.Serving? || s.tasks[t].pc.Disconnected?)
          && (s.tasks[t].pc.Disconnected? || t in c.collected || c.pc.Called? || c.pc.Marked?
              || (c.pc.Collecting? && c.pc.next <= s.tasks[t].endpoint < c.upto)))
    && (c.pc.AwaitingOthers? ==> c.caller.Some?)
    && (c.pc.AwaitingLoop? ==> c.caller.None?)
  }

  ghost predicate FlagsInv(s: Server) {
    var c := s.call;
    && (!c.pc.NotCalled? && !c.pc.Called? ==> s.stopped)
    && (!c.pc.NotCalled? && !c.pc.Called? && !c.pc.Marked? ==> s.signalled)
  }

  /** When `stop` has returned. */
  ghost predicate DoneInv(s: Server) {
    var within := s.call.within;
    s.call.pc.Done? ==>
      && !s.accepting
      && (forall t :: 0 <= t < |s.tasks| && within != Some(t) ==> s.tasks[t].pc.Joined?)
      && (within.Some? ==>
            within.value < |s.tasks| && s.tasks[within.value].session.Closed?)
  }

  ghost predicate StopInv(s: Server) {
    && Tracked(s) && LoopInv(s) && TasksInv(s)
    && CollectedInv(s) && CallerInv(s) && FlagsInv(s) && DoneInv(s)
  }

  lemma {:induction false} LoopStepKeepsTracked(s: Server, e: Event, s': Server)
    requires Tracked(s) && LoopInv(s) && LoopStep(s, e, s')
    ensures Tracked(s') && LoopInv(s')
  {
  }

  /** What a step of the accept loop does to the tasks. */
  lemma {:induction false} LoopStepTasks(s: Server, e: Event, s': Server)
    requires LoopStep(s, e, s')
    ensures s'.call == s.call && s'.stopped == s.stopped && s'.signalled == s.signalled && |s'.tasks| >= |s.tasks|
    ensures s.endpoints <= s'.endpoints && (!s.accepting ==> !s'.accepting)
    ensures forall t :: 0 <= t < |s.tasks| ==>
              && s'.tasks[t].session == s.tasks[t].session && s'.tasks[t].endpoint == s.tasks[t].endpoint
              && (s'.tasks[t].pc == s.tasks[t].pc
                  || (s.tasks[t].pc.Gated? && s'.tasks[t].pc.Handshaking?)
                  || (s.tasks[t].pc.Ended? && s'.tasks[t].pc.Joined?))
    ensures forall t :: |s.tasks| <= t < |s'.tasks| ==> s'.tasks[t] == Task(0, Gated, Absent)
    ensures !s.loop.Accepting? ==> |s'.tasks| == |s.tasks|
  {
  }

  lemma {:induction false} LoopStepKeeps(s: Server, e: Event, s': Server)
    requires StopInv(s) && LoopStep(s, e, s')
    ensures StopInv(s')
  {
    hide LoopStep, Tracked;
    LoopStepKeepsTracked(s, e, s');
    LoopStepTasks(s, e, s');
  }

  /** The moves of a task, with its session. */
  predicate TaskMoves(s: Server, t: nat, a: Task, b: Task) {
    || a == b
    || (a.pc.Handshaking? && !s.stopped && b.pc.Checked? && b.session.Absent? && b.endpoint < s.endpoints)
    || (b.endpoint == a.endpoint
        && (|| (a.pc.Checked? && b == a.(pc := Started, session := SessionPhase.Open))
            || (a.pc.Started? && b == a.(pc := Serving))
            || (a.session.Open? && b == a.(session := SessionPhase.Shut))
            || (a.session.Shut? && b == a.(session := SessionPhase.Closed))
            || (a.pc.Serving? && a.session.Closed? && !Blocked(s, t) && b == a.(pc := Disconnected))
            || ((a.pc.Handshaking? || (a.pc.Disconnected? && !Blocked(s, t))) && b == a.(pc := Ended))
            || (Abortable(a.pc) && s.call.pc.AwaitingOthers? && s.call.caller != Some(t) && t in s.tracked
                && b == a.(pc := Ended, session := AfterShut(a.session)))))
  }

  lemma {:induction false} TaskStepTasks(s: Server, e: Event, s': Server)
    requires TaskStep(s, e, s')
    ensures |s'.tasks| == |s.tasks| && s' == s.(tasks := s'.tasks, call := s'.call)
    ensures s'.call == s.call || (e.DropHook? && Awaits(s.call.pc) && s'.call == s.call.(pc := Abandoned))
    ensures forall t :: 0 <= t < |s.tasks| ==> TaskMoves(s, t, s.tasks[t], s'.tasks[t])
  {
  }

  lemma {:induction false} TaskStepKeepsTracked(s: Server, e: Event, s': Server)
    requires Tracked(s) && LoopInv(s) && TaskStep(s, e, s')
    ensures Tracked(s') && LoopInv(s')
  {
    hide TaskStep;
    TaskStepTasks(s, e, s');
  }

  lemma {:induction false} TaskStepKeeps(s: Server, e: Event, s': Server)
    requires StopInv(s) && TaskStep(s, e, s')
    ensures StopInv(s')
  {
    hide TaskStep, Tracked, LoopInv;
    TaskStepKeepsTracked(s, e, s');
    TaskStepTasks(s, e, s');
  }

  /** What a step of `stop` does to the tasks: it shuts sessions. */
  lemma {:induction false} StopStepTasks(s: Server, e: Event, s': Server)
    requires StopStep(s, e, s')
    ensures |s'.tasks| == |s.tasks| && s'.tracked == s.tracked && s'.loop == s.loop && s'.accepting == s.accepting
    ensures forall t :: 0 <= t < |s.tasks| ==>
              || s'.tasks[t] == s.tasks[t]
              || (s.tasks[t].session.Open? && s'.tasks[t] == s.tasks[t].(session := SessionPhase.Shut))
    ensures s'.endpoints == s.endpoints
  {
  }

  lemma {:induction false} StopStepKeepsTasks(s: Server, e: Event, s': Server)
    requires Tracked(s) && LoopInv(s) && TasksInv(s) && StopStep(s, e, s')
    ensures Tracked(s') && LoopInv(s') && TasksInv(s')
  {
    hide StopStep;
    StopStepTasks(s, e, s');
  }

  lemma {:induction false} StopStepKeepsCollected(s: Server, e: Event, s': Server)
    requires CollectedInv(s) && TasksInv(s) && StopStep(s, e, s')
    ensures CollectedInv(s')
  {
  }

  lemma {:induction false} StopStepKeepsCaller(s: Server, e: Event, s': Server)
    requires StopInv(s) && StopStep(s, e, s')
    ensures CallerInv(s') && FlagsInv(s') && DoneInv(s')
  {
  }

  lemma {:induction false} StepKeeps(s: Server, e: Event, s': Server)
    requires StopInv(s) && Step(s, e, s')
    ensures StopInv(s')
  {
    hide LoopStep, TaskStep, StopStep, Tracked, LoopInv, TasksInv, CollectedInv, CallerInv, FlagsInv, DoneInv;
    if LoopStep(s, e, s') {
      LoopStepKeeps(s, e, s');
    } else if TaskStep(s, e, s') {
      TaskStepKeeps(s, e, s');
    } else {
      StopStepKeepsTasks(s, e, s');
      StopStepKeepsCollected(s, e, s');
      StopStepKeepsCaller(s, e, s');
    }
  }

  lemma {:induction false} BoundKeeps()
    ensures StopInv(BOUND)
  {
  }

  lemma {:induction false} RunKeeps(run: seq<Server>, events: seq<Event>, k: nat)
    requires Run(run, events) && k < |run|
    ensures StopInv(run[k])
  {
    hide Step, StopInv;
    if k == 0 {
      BoundKeeps();
    } else {
      RunKeeps(run, events, k - 1);
      assert StepAt(run, events, k - 1);
      StepKeeps(run[k - 1], events[k - 1], run[k]);
    }
  }

  /** Hooks run only in tracked tasks, however early they start; so `stop` awaited by a hook knows its own
      task, and waits for the others instead of for the accept loop, which would wait for the hook. */
  lemma {:induction false} StopKnowsItsCaller(run: seq<Server>, events: seq<Event>, k: nat)
    requires Run(run, events) && k < |run|
    ensures forall t :: 0 <= t < |run[k].tasks| && Runs(run[k].tasks[t].pc) ==>
              t in run[k].tracked && !run[k].loop.Stopped?
    ensures run[k].call.pc.AwaitingLoop? ==> run[k].call.within.None?
    ensures run[k].call.pc.AwaitingOthers? ==> run[k].call.within.Some? && run[k].call.caller == run[k].call.within
  {
    hide Run;
    RunKeeps(run, events, k);
  }

  lemma {:induction false} ReturnedStays(run: seq<Server>, events: seq<Event>, j: nat, k: nat)
    requires Steps(run, events) && j <= k < |run| && run[j].call.pc.Done?
    ensures run[k].call == run[j].call
  {
    if j < k {
      ReturnedStays(run, events, j, k - 1);
      assert StepAt(run, events, k - 1);
    }
  }

  /** From the moment at which `stop` has returned, whatever happens next: nothing is accepted, every
      connection task has been joined, except that of a hook that awaited `stop`, and no session is open. */
  lemma {:induction false} StopLeavesNothing(run: seq<Server>, events: seq<Event>, j: nat, k: nat, t: nat)
    requires Run(run, events) && j <= k < |run| && run[j].call.pc.Done? && t < |run[k].tasks|
    ensures !run[k].accepting && !run[k].tasks[t].session.Open?
    ensures run[k].call.within != Some(t) ==> run[k].tasks[t].pc.Joined?
  {
    hide Step;
    RunKeeps(run, events, k);
    ReturnedStays(run, events, j, k);
  }

  /** A connect hook that awaits `stop` does not see it return undisturbed: its own session is among those
      closed, and that drops the hook, with `stop` in it. */
  lemma {:induction false} ConnectHookDropped(run: seq<Server>, events: seq<Event>, k: nat, t: nat)
    requires Run(run, events) && k < |run|
    requires run[k].call.pc.AwaitingOthers? && run[k].call.within == Some(t) && TaskAt(run[k], t, Serving)
    ensures Step(run[k], DropHook(t), At(run[k], Abandoned))
  {
    hide Run;
    RunKeeps(run, events, k);
  }

  // ----- close_sessions inside stop

  predicate Collects(pc: StopPc) {
    pc.Collecting? || pc.Closing? || pc.Awaiting?
  }

  predicate Waits(pc: StopPc) {
    pc.AwaitingOthers? || pc.AwaitingLoop?
  }

  predicate CloseEvent(e: Event) {
    e.Collect? || e.BeginClose? || e.CloseOne? || e.BeginAwait? || e.SawClosed? || e.BeginWait? || e.Publish?
  }

  /** Tasks go no further; sessions that are not collected stay as they are. */
  ghost predicate Unmoved(s: Server, s': Server) {
    && |s'.tasks| == |s.tasks| && s'.tracked == s.tracked && s'.loop == s.loop && s'.accepting == s.accepting
    && s'.call.within == s.call.within && s'.call.caller == s.call.caller
    && (forall t :: 0 <= t < |s.tasks| ==> s'.tasks[t].pc == s.tasks[t].pc)
    && (forall t :: 0 <= t < |s.tasks| && t !in s'.call.collected ==> s'.tasks[t] == s.tasks[t])
    && s.call.collected <= s'.call.collected
    && (forall t :: t in s'.call.collected ==> t in s.call.collected || TaskAt(s, t, Serving))
  }

  lemma {:induction false} Prefixed(s: Server, e: Event, run: seq<Server>, events: seq<Event>)
    requires Steps(run, events) && Step(s, e, run[0])
    ensures Steps([s] + run, [e] + events)
  {
    hide Step;
    forall k | 0 <= k < |events| + 1 ensures StepAt([s] + run, [e] + events, k) {
      if k > 0 {
        assert StepAt(run, events, k - 1);
      }
    }
  }

  /** How far `close_sessions` still has to go. */
  function ToGo(c: Call): nat {
    match c.pc
    case Collecting(next) => if next < c.upto then c.upto - next else 0
    case Closing(todo) => |todo|
    case Awaiting(todo) => |todo|
    case _ => 0
  }

  function Stage(pc: StopPc): nat {
    match pc case Collecting(_) => 3 case Closing(_) => 2 case Awaiting(_) => 1 case _ => 0
  }

  /** The sessions that `close_sessions` awaits and that have yet to publish that they are closed. */
  function Unpublished(s: Server): set<nat> {
    set t | 0 <= t < |s.tasks| && t in s.call.collected && s.tasks[t].session.Shut?
  }

  /** `close_sessions` gets further from `s` to `s'`. */
  ghost predicate Further(s: Server, e: Event, s': Server) {
    && Step(s, e, s') && CloseEvent(e) && Unmoved(s, s') && (Collects(s'.call.pc) || Waits(s'.call.pc))
    && (|| Stage(s'.call.pc) < Stage(s.call.pc)
        || (Stage(s'.call.pc) == Stage(s.call.pc) && ToGo(s'.call) < ToGo(s.call)))
  }

  lemma {:induction false} CollectingGoesOn(s: Server) returns (e: Event, s': Server)
    requires s.call.pc.Collecting? && s.call.pc.next <= s.call.upto
    ensures Further(s, e, s')
  {
    hide LoopStep, TaskStep;
    var c := s.call;
    if c.pc.next < c.upto {
      var collected := c.collected + RegisteredAt(s, c.pc.next);
      e, s' := Collect, s.(call := c.(pc := Collecting(c.pc.next + 1), collected := collected));
    } else {
      e, s' := BeginClose, At(s, Closing(c.collected));
    }
  }

  lemma {:induction false} OneIsShut(s: Server, t: nat) returns (s': Server)
    requires s.call.pc.Closing? && CollectedInv(s) && t in s.call.pc.todo
    ensures Further(s, CloseOne(t), s')
  {
    hide LoopStep, TaskStep, CollectedInv;
    assert t < |s.tasks| && t in s.call.collected by {
      Collected(s, t);
    }
    s' := At(Phased(s, t, AfterShut(s.tasks[t].session)), Closing(s.call.pc.todo - {t}));
  }

  lemma {:induction false} OneIsClosed(s: Server, t: nat) returns (s': Server)
    requires s.call.pc.Awaiting? && CollectedInv(s) && t in s.call.pc.todo && t !in Unpublished(s)
    ensures Further(s, SawClosed(t), s') && s'.tasks == s.tasks && s'.call.collected == s.call.collected
  {
    hide LoopStep, TaskStep, CollectedInv;
    assert t < |s.tasks| && s.tasks[t].session.Closed? by {
      Collected(s, t);
    }
    s' := At(s, Awaiting(s.call.pc.todo - {t}));
  }

  lemma {:induction false} Collected(s: Server, t: nat)
    requires CollectedInv(s)
    requires (s.call.pc.Closing? && t in s.call.pc.todo) || (s.call.pc.Awaiting? && t in s.call.pc.todo)
    ensures t in s.call.collected && t < |s.tasks|
    ensures s.call.pc.Awaiting? && t !in Unpublished(s) ==> s.tasks[t].session.Closed?
  {
  }

  lemma {:induction false} AllIsDone(s: Server) returns (e: Event, s': Server)
    requires s.call.pc == Closing({}) || s.call.pc == Awaiting({})
    ensures Further(s, e, s') && s'.tasks == s.tasks && s'.call.collected == s.call.collected
  {
    hide LoopStep, TaskStep;
    if s.call.pc.Closing? {
      e, s' := BeginAwait, At(s, Awaiting(s.call.collected));
    } else {
      e, s' := BeginWait, At(s, if s.call.caller.Some? then AwaitingOthers else AwaitingLoop);
    }
  }

  lemma {:induction false} CollectedGoesOn(s: Server) returns (e: Event, s': Server)
    requires (s.call.pc.Closing? || (s.call.pc.Awaiting? && Unpublished(s) == {})) && CollectedInv(s)
    ensures Further(s, e, s')
  {
    hide Further, CollectedInv;
    if s.call.pc.todo == {} {
      e, s' := AllIsDone(s);
    } else {
      var t :| t in s.call.pc.todo;
      if s.call.pc.Closing? {
        e := CloseOne(t);
        s' := OneIsShut(s, t);
      } else {
        e := SawClosed(t);
        s' := OneIsClosed(s, t);
      }
    }
  }

  lemma {:induction false} PublishOne(s: Server, t: nat) returns (s': Server)
    requires StopInv(s) && s.call.pc.Awaiting? && t in Unpublished(s)
    ensures Step(s, Publish(t), s') && Unmoved(s, s') && s'.call == s.call
    ensures Unpublished(s') == Unpublished(s) - {t}
  {
    s' := Phased(s, t, SessionPhase.Closed);
  }

  lemma {:induction false} UnmovedTwice(s: Server, s': Server, s'': Server)
    requires Unmoved(s, s') && Unmoved(s', s'')
    ensures Unmoved(s, s'')
  {
  }

  /** From any point inside `close_sessions`, whatever sessions it finds: it gets through by its own steps and
      those by which the sessions collected publish that they are closed. */
  lemma {:induction false} CloseSessionsReturns(s: Server) returns (run: seq<Server>, events: seq<Event>)
    requires StopInv(s) && Collects(s.call.pc)
    ensures Steps(run, events) && run[0] == s && forall k :: 0 <= k < |events| ==> CloseEvent(events[k])
    ensures var last := run[|events|]; StopInv(last) && Waits(last.call.pc) && Unmoved(s, last)
    decreases Stage(s.call.pc), ToGo(s.call), |Unpublished(s)|
  {
    hide Step, StopInv, Unmoved;
    var e: Event;
    var s': Server;
    Parts(s);
    if s.call.pc.Collecting? {
      e, s' := CollectingGoesOn(s);
    } else if s.call.pc.Awaiting? && Unpublished(s) != {} {
      var t :| t in Unpublished(s);
      e := Publish(t);
      s' := PublishOne(s, t);
    } else {
      e, s' := CollectedGoesOn(s);
    }
    StepKeeps(s, e, s');
    if Waits(s'.call.pc) {
      run, events := [s'], [];
    } else {
      run, events := CloseSessionsReturns(s');
      UnmovedTwice(s, s', run[|events|]);
    }
    Prefixed(s, e, run, events);
    run, events := [s] + run, [e] + events;
  }

  lemma {:induction false} Parts(s: Server)
    requires StopInv(s)
    ensures CollectedInv(s) && CallerInv(s) && TasksInv(s) && FlagsInv(s)
  {
  }

  // ----- which sessions close_sessions misses

  /** From this moment on, the session of task `t` can still be open when `close_sessions` has returned. */
  ghost predicate CanStayOpen(s: Server, t: nat) {
    exists run, events :: StaysOpen(run, events, s, t)
  }

  ghost predicate StaysOpen(run: seq<Server>, events: seq<Event>, s: Server, t: nat) {
    && Steps(run, events) && run[0] == s
    && var last := run[|events|];
       Waits(last.call.pc) && t < |last.tasks| && last.tasks[t].session.Open?
  }

  predicate ShutForGood(task: Task) {
    !task.session.Open? && !task.pc.Checked?
  }

  /** The session of task `t` is not open, or `close_sessions` finds or has found it at endpoint `n`. */
  predicate Caught(s: Server, t: nat, n: nat) {
    var c := s.call;
    && s.stopped && t < |s.tasks| && s.tasks[t].endpoint == n
    && !c.pc.NotCalled? && !c.pc.Called? && !c.pc.Marked?
    && (Collects(c.pc) || Waits(c.pc) ==>
          || ShutForGood(s.tasks[t])
          || t in c.collected
          || (s.tasks[t].pc.Serving? && c.pc.Collecting? && c.pc.next <= n < c.upto))
  }

  lemma {:induction false} CaughtByLoop(s: Server, e: Event, s': Server, t: nat, n: nat)
    requires Caught(s, t, n) && LoopStep(s, e, s')
    ensures Caught(s', t, n)
  {
    hide LoopStep;
    LoopStepTasks(s, e, s');
  }

  lemma {:induction false} CaughtByTasks(s: Server, e: Event, s': Server, t: nat, n: nat)
    requires Caught(s, t, n) && TaskStep(s, e, s')
    ensures Caught(s', t, n)
  {
    hide TaskStep;
    TaskStepTasks(s, e, s');
    assert TaskMoves(s, t, s.tasks[t], s'.tasks[t]);
  }

  lemma {:induction false} CaughtByStop(s: Server, e: Event, s': Server, t: nat, n: nat)
    requires Caught(s, t, n) && StopStep(s, e, s')
    ensures Caught(s', t, n)
  {
    if e.Collect? && s.tasks[t].pc.Serving? && s.call.pc.next == n {
      assert t in RegisteredAt(s, n);
    }
  }

  lemma {:induction false} StaysCaught(run: seq<Server>, events: seq<Event>, k: nat, t: nat, n: nat)
    requires Steps(run, events) && k < |run| && StopInv(run[0]) && Caught(run[0], t, n)
    ensures StopInv(run[k]) && Caught(run[k], t, n)
  {
    hide LoopStep, TaskStep, StopStep, StopInv, Caught;
    if k > 0 {
      StaysCaught(run, events, k - 1, t, n);
      assert StepAt(run, events, k - 1);
      var s, e, s' := run[k - 1], events[k - 1], run[k];
      StepKeeps(s, e, s');
      if LoopStep(s, e, s') {
        CaughtByLoop(s, e, s', t, n);
      } else if TaskStep(s, e, s') {
        CaughtByTasks(s, e, s', t, n);
      } else {
        CaughtByStop(s, e, s', t, n);
      }
    }
  }

  lemma {:induction false} MissedStaysOpen(s: Server, t: nat) returns (run: seq<Server>, events: seq<Event>)
    requires StopInv(s) && Collects(s.call.pc) && t < |s.tasks|
    requires s.tasks[t].pc.Checked? || (s.tasks[t].pc.Started? && s.tasks[t].session.Open?)
    ensures StaysOpen(run, events, s, t)
  {
    hide LoopStep, StopStep;
    run, events := CloseSessionsReturns(s);
    var last := run[|events|];
    assert t !in last.call.collected;
    if s.tasks[t].pc.Checked? {
      var after := Phased(Moved(last, t, Started), t, SessionPhase.Open);
      assert Step(last, Create(t), after);
      Appended(run, events, Create(t), after);
      run, events := run + [after], events + [Create(t)];
    }
  }

  lemma {:induction false} Appended(run: seq<Server>, events: seq<Event>, e: Event, s': Server)
    requires Steps(run, events) && Step(run[|events|], e, s')
    ensures Steps(run + [s'], events + [e])
  {
    hide Step;
    forall k | 0 <= k < |events| + 1 ensures StepAt(run + [s'], events + [e], k) {
      if k < |events| {
        assert StepAt(run, events, k);
      }
    }
  }

  /** Exactly which sessions `close_sessions` misses, at the moment at which it looks at their endpoint: those
      whose task had passed the test of `stopped` and has not registered the session yet. Such a session is
      only closed by its peer, or with its task. */
  lemma {:induction false} MissedExactly(s: Server, t: nat)
    requires StopInv(s) && s.call.pc.Collecting? && s.call.pc.next < s.call.upto
    requires t < |s.tasks| && s.tasks[t].endpoint == s.call.pc.next
    ensures CanStayOpen(s, t) <==>
              s.tasks[t].pc.Checked? || (s.tasks[t].pc.Started? && s.tasks[t].session.Open?)
  {
    hide Steps;
    if s.tasks[t].pc.Checked? || (s.tasks[t].pc.Started? && s.tasks[t].session.Open?) {
      var run, events := MissedStaysOpen(s, t);
    } else if run, events :| StaysOpen(run, events, s, t) {
      assert Caught(s, t, s.call.pc.next);
      RunLength(run, events);
      StaysCaught(run, events, |events|, t, s.call.pc.next);
    }
  }

  const ADMITTED := Server(1, true, {0}, [Task(0, Checked, Absent)], Accepting, false, false,
                           Call(NotCalled, None, None, 0, {}))

  lemma {:induction false} OneIsAccepted() returns (run: seq<Server>, events: seq<Event>)
    ensures Run(run, events) && run[|events|] == ADMITTED.(tasks := [Task(0, Handshaking, Absent)])
  {
    hide TaskStep, StopStep;
    var s1 := BOUND.(endpoints := 1);
    var s2 := s1.(tasks := [Task(0, Gated, Absent)], loop := Inserting(0));
    var s3 := s2.(tracked := {0}, loop := Releasing(0));
    var s4 := Moved(s3, 0, Handshaking).(loop := Accepting);
    run, events := [BOUND, s1, s2, s3, s4], [AddEndpoint, Accept, Insert, Release];
    assert StepAt(run, events, 0);
    assert StepAt(run, events, 1);
    assert StepAt(run, events, 2);
    assert StepAt(run, events, 3);
  }

  lemma {:induction false} OneIsAdmitted() returns (run: seq<Server>, events: seq<Event>)
    ensures Run(run, events) && run[|events|] == ADMITTED
  {
    hide LoopStep, StopStep;
    run, events := OneIsAccepted();
    assert TaskStep(run[|events|], Check(0, 0), ADMITTED);
    Appended(run, events, Check(0, 0), ADMITTED);
    run, events := run + [ADMITTED], events + [Check(0, 0)];
  }

  /** Such moments exist: a connection passes the test just before `stop` is called. */
  lemma {:induction false} MissHappens() returns (run: seq<Server>, events: seq<Event>)
    ensures Run(run, events) && CanStayOpen(run[|events|], 0)
    ensures run[|events|].call.pc == Collecting(0) && run[|events|].call.upto == 1
  {
    hide LoopStep, TaskStep, StopInv, CanStayOpen;
    var s1 := ADMITTED.(call := Call(Called, None, None, 0, {}));
    var s2 := At(s1, Marked).(stopped := true);
    var s3 := s2.(signalled := true, call := Call(Collecting(0), None, None, 1, {}));
    run, events := OneIsAdmitted();
    Appended(run, events, CallStop(None), s1);
    Appended(run + [s1], events + [CallStop(None)], MarkStopped, s2);
    Appended(run + [s1] + [s2], events + [CallStop(None)] + [MarkStopped], Signal, s3);
    run := run + [s1] + [s2] + [s3];
    events := events + [CallStop(None)] + [MarkStopped] + [Signal];
    RunKeeps(run, events, |events|);
    MissedExactly(s3, 0);
  }

  lemma {:induction false} RunLength(run: seq<Server>, events: seq<Event>)
    requires Steps(run, events)
    ensures |run| == |events| + 1
  {
  }

  /** A task whose session is closed ends by its own steps, unless its hook is waiting for `stop`: it removes
      the session, runs the disconnect hook and returns. */
  lemma {:induction false} ServedTaskEnds(s: Server, t: nat) returns (run: seq<Server>, events: seq<Event>)
    requires TaskAt(s, t, Serving) && s.tasks[t].session.Closed? && !Blocked(s, t)
    ensures Steps(run, events) && run[0] == s && events == [Remove(t), Return(t)]
    ensures run[2] == s.(tasks := s.tasks[t := s.tasks[t].(pc := Ended)])
    ensures t !in RegisteredAt(run[1], s.tasks[t].endpoint)
  {
    hide LoopStep, StopStep;
    var s1, s2 := Moved(s, t, Disconnected), Moved(s, t, Ended);
    run, events := [s, s1, s2], [Remove(t), Return(t)];
    assert StepAt(run, events, 0);
    assert StepAt(run, events, 1);
  }

  // ----- stop does return

  /** The steps a task other than the caller still has before it, at most, until it is joined. */
  function Weight(pc: TaskPc): nat {
    match pc
    case Checked => 4
    case Started => 3
    case Ended => 1
    case Joined => 0
    case _ => 2
  }

  function Load(tasks: seq<Task>, caller: nat): nat {
    if tasks == [] then 0
    else Load(tasks[..|tasks| - 1], caller)
         + if |tasks| - 1 == caller then 0 else Weight(tasks[|tasks| - 1].pc)
  }

  lemma {:induction false} LoadAt(tasks: seq<Task>, caller: nat, t: nat, task: Task)
    requires t < |tasks| && t != caller
    ensures Load(tasks[t := task], caller) == Load(tasks, caller) - Weight(tasks[t].pc) + Weight(task.pc)
  {
    var n := |tasks| - 1;
    if t == n {
      assert tasks[t := task][..n] == tasks[..n];
    } else {
      LoadAt(tasks[..n], caller, t, task);
      assert tasks[t := task][..n] == tasks[..n][t := task];
    }
  }

  function Ahead(loop: LoopPc): nat {
    match loop
    case Inserting(_) => 3
    case Releasing(_) => 2
    case Accepting => 1
    case _ => 0
  }

  /** Steps of the accept loop, of `stop` and of the tasks on their way, including an abort after the
      deadline; but no new connection, no hook that ends, and no help from a peer. */
  predicate ServerEvent(e: Event, caller: nat) {
    || CloseEvent(e) || e.MarkStopped? || e.Signal? || e.StopReturns?
    || e.Insert? || e.Release? || e.SeeStop? || e.Join?
    || e.Create? || e.Register? || (e.Abort? && e.task != caller)
  }

  /** `stop`, awaited by the disconnect hook of `caller`, waits for the other tasks. */
  ghost predicate HookWaits(s: Server, caller: nat) {
    && StopInv(s) && s.call.pc.AwaitingOthers? && s.call.caller == Some(caller) && TaskAt(s, caller, Disconnected)
  }

  ghost predicate Nearer(s: Server, e: Event, s': Server, caller: nat) {
    && Step(s, e, s') && ServerEvent(e, caller) && HookWaits(s', caller)
    && (|| Load(s'.tasks, caller) < Load(s.tasks, caller)
        || (Load(s'.tasks, caller) == Load(s.tasks, caller) && Ahead(s'.loop) < Ahead(s.loop)))
  }

  lemma {:induction false} LoopNearer(s: Server, caller: nat) returns (e: Event, s': Server)
    requires HookWaits(s, caller) && !s.loop.Draining? && !s.loop.Stopped?
    ensures Nearer(s, e, s', caller)
  {
    hide StopInv, TaskStep, StopStep;
    Tracks(s);
    match s.loop {
      case Inserting(t) => e, s' := Insert, s.(tracked := s.tracked + {t}, loop := Releasing(t));
      case Releasing(t) =>
        e, s' := Release, (if s.tasks[t].pc.Gated? then Moved(s, t, Handshaking) else s).(loop := Accepting);
        if s.tasks[t].pc.Gated? {
          LoadAt(s.tasks, caller, t, s'.tasks[t]);
        }
      case Accepting => e, s' := SeeStop, s.(loop := Draining, accepting := false);
    }
    assert LoopStep(s, e, s');
    StepKeeps(s, e, s');
  }

  lemma {:induction false} Tracks(s: Server)
    requires StopInv(s)
    ensures Tracked(s) && LoopInv(s) && FlagsInv(s)
  {
  }

  lemma {:induction false} JoinedOne(s: Server, t: nat) returns (s': Server)
    requires s.loop.Draining? && TaskAt(s, t, Ended)
    ensures LoopStep(s, Join(t), s') && s'.call == s.call && s'.loop == s.loop
    ensures s'.tasks == s.tasks[t := s.tasks[t].(pc := Joined)]
  {
    s' := Moved(s, t, Joined).(tracked := s.tracked - {t});
  }

  /** The next step of a task that is not joined. */
  lemma {:induction false} TaskGoesOn(s: Server, caller: nat, t: nat) returns (e: Event, s': Server)
    requires Tracked(s) && s.call.pc.AwaitingOthers? && s.call.caller == Some(caller)
    requires s.loop.Draining? && t < |s.tasks| && t != caller && !s.tasks[t].pc.Joined?
    ensures Step(s, e, s') && ServerEvent(e, caller) && s'.call == s.call && s'.loop == s.loop
    ensures |s'.tasks| == |s.tasks| && s'.tasks == s.tasks[t := s'.tasks[t]]
    ensures Weight(s'.tasks[t].pc) < Weight(s.tasks[t].pc)
  {
    hide LoopStep, StopStep, CloseEvent;
    var task := s.tasks[t];
    if task.pc.Ended? {
      e := Join(t);
      s' := JoinedOne(s, t);
    } else if task.pc.Checked? {
      e, s' := Create(t), s.(tasks := s.tasks[t := Task(task.endpoint, Started, SessionPhase.Open)]);
      assert s' == Phased(Moved(s, t, Started), t, SessionPhase.Open);
    } else if task.pc.Started? {
      e, s' := Register(t), Moved(s, t, Serving);
    } else {
      e, s' := Abort(t), s.(tasks := s.tasks[t := Task(task.endpoint, Ended, AfterShut(task.session))]);
      assert s' == Phased(Moved(s, t, Ended), t, AfterShut(task.session));
    }
  }

  lemma {:induction false} TaskNearer(s: Server, caller: nat, t: nat) returns (e: Event, s': Server)
    requires HookWaits(s, caller) && s.loop.Draining? && t < |s.tasks| && t != caller && !s.tasks[t].pc.Joined?
    ensures Nearer(s, e, s', caller)
  {
    hide StopInv, Step, ServerEvent, Weight;
    Tracks(s);
    e, s' := TaskGoesOn(s, caller, t);
    StepKeeps(s, e, s');
    LoadAt(s.tasks, caller, t, s'.tasks[t]);
  }

  lemma {:induction false} OthersGo(s: Server, caller: nat) returns (run: seq<Server>, events: seq<Event>)
    requires HookWaits(s, caller)
    ensures Steps(run, events) && run[0] == s && forall k :: 0 <= k < |events| ==> ServerEvent(events[k], caller)
    ensures run[|events|].call.pc.Done? && TaskAt(run[|events|], caller, Disconnected)
    decreases Load(s.tasks, caller), Ahead(s.loop)
  {
    hide Step, StopInv, ServerEvent, Load;
    Tracks(s);
    var e: Event;
    var s': Server;
    if !s.loop.Draining? && !s.loop.Stopped? {
      e, s' := LoopNearer(s, caller);
    } else if t: nat :| t < |s.tasks| && t != caller && !s.tasks[t].pc.Joined? {
      e, s' := TaskNearer(s, caller, t);
    } else {
      run, events := LastStep(s, caller);
      return;
    }
    run, events := OthersGo(s', caller);
    Prefixed(s, e, run, events);
    run, events := [s] + run, [e] + events;
  }

  lemma {:induction false} LastStep(s: Server, caller: nat) returns (run: seq<Server>, events: seq<Event>)
    requires HookWaits(s, caller) && (s.loop.Draining? || s.loop.Stopped?)
    requires forall t :: 0 <= t < |s.tasks| && t != caller ==> s.tasks[t].pc.Joined?
    ensures Steps(run, events) && run[0] == s && forall k :: 0 <= k < |events| ==> ServerEvent(events[k], caller)
    ensures run[|events|].call.pc.Done? && TaskAt(run[|events|], caller, Disconnected)
  {
    hide LoopStep, TaskStep;
    Tracks(s);
    run, events := [s, At(s, Done)], [StopReturns];
    assert StepAt(run, events, 0);
  }

  /** From every state after the call: `stop` awaited by a disconnect hook does return, by steps of the server
      alone and while that hook is still running. It never waits for itself. */
  lemma {:induction false} StopReturnsToHook(s: Server, caller: nat) returns (run: seq<Server>, events: seq<Event>)
    requires StopInv(s) && InProgress(s.call.pc) && s.call.within == Some(caller) && TaskAt(s, caller, Disconnected)
    ensures Steps(run, events) && run[0] == s && forall k :: 0 <= k < |events| ==> ServerEvent(events[k], caller)
    ensures run[|events|].call.pc.Done? && TaskAt(run[|events|], caller, Disconnected)
    decreases match s.call.pc case Called => 2 case Marked => 1 case _ => 0
  {
    hide Step, StopInv, Unmoved;
    Parts(s);
    if s.call.pc.Called? || s.call.pc.Marked? {
      var e, s' := StopSignals(s);
      StepKeeps(s, e, s');
      run, events := StopReturnsToHook(s', caller);
      Prefixed(s, e, run, events);
      run, events := [s] + run, [e] + events;
    } else if Collects(s.call.pc) {
      var first, closing := CloseSessionsReturns(s);
      StillWaits(s, first[|closing|], caller);
      var rest, waiting := OthersGo(first[|closing|], caller);
      Joins(first, closing, rest, waiting);
      run, events := first + rest[1..], closing + waiting;
    } else {
      run, events := OthersGo(s, caller);
    }
  }

  lemma {:induction false} StopSignals(s: Server) returns (e: Event, s': Server)
    requires s.call.pc.Called? || s.call.pc.Marked?
    ensures Step(s, e, s') && (e.MarkStopped? || e.Signal?)
    ensures s'.tasks == s.tasks && s'.call.within == s.call.within && InProgress(s'.call.pc)
    ensures if s.call.pc.Called? then s'.call.pc.Marked? else s'.call.pc.Collecting?
  {
    if s.call.pc.Called? {
      e, s' := MarkStopped, At(s, Marked).(stopped := true);
    } else {
      e, s' := Signal, s.(signalled := true, call := s.call.(pc := Collecting(0), upto := s.endpoints));
    }
  }

  lemma {:induction false} StillWaits(s: Server, s': Server, caller: nat)
    requires CallerInv(s) && Collects(s.call.pc) && s.call.within == Some(caller) && TaskAt(s, caller, Disconnected)
    requires StopInv(s') && Unmoved(s, s') && Waits(s'.call.pc)
    ensures HookWaits(s', caller)
  {
    assert CallerInv(s');
  }

  lemma {:induction false} Joins(run: seq<Server>, events: seq<Event>, more: seq<Server>, further: seq<Event>)
    requires Steps(run, events) && Steps(more, further) && run[|events|] == more[0]
    ensures Steps(run + more[1..], events + further)
    ensures (run + more[1..])[0] == run[0] && (run + more[1..])[|events| + |further|] == more[|further|]
  {
    hide Step;
    var r, es := run + more[1..], events + further;
    assert forall m :: 0 <= m < |more| ==> r[|events| + m] == more[m];
    forall k | 0 <= k < |es| ensures StepAt(r, es, k) {
      if k < |events| {
        assert StepAt(run, events, k);
      } else {
        assert StepAt(more, further, k - |events|);
      }
    }
  }

  // ----- stop awaited outside a hook

  /** The steps of a connection task and of its session until the task is joined, at most. */
  function Distance(task: Task): nat {
    match task.pc
    case Gated => 3
    case Handshaking => 2
    case Checked => 7
    case Started => 6
    case Serving => if task.session.Open? then 5 else if task.session.Shut? then 4 else 3
    case Disconnected => 2
    case Ended => 1
    case Joined => 0
  }

  function Remaining(tasks: seq<Task>): nat {
    if tasks == [] then 0 else Remaining(tasks[..|tasks| - 1]) + Distance(tasks[|tasks| - 1])
  }

  lemma {:induction false} RemainingAt(tasks: seq<Task>, t: nat, task: Task)
    requires t < |tasks|
    ensures Remaining(tasks[t := task]) == Remaining(tasks) - Distance(tasks[t]) + Distance(task)
  {
    var n := |tasks| - 1;
    if t == n {
      assert tasks[t := task][..n] == tasks[..n];
    } else {
      RemainingAt(tasks[..n], t, task);
      assert tasks[t := task][..n] == tasks[..n][t := task];
    }
  }

  /** No new connection, no abort, no new session: what is under way comes to its end, and a peer whose session
      was missed leaves. */
  predicate UsualEvent(e: Event) {
    || CloseEvent(e) || e.MarkStopped? || e.Signal? || e.StopReturns?
    || e.Insert? || e.Release? || e.SeeStop? || e.Join? || e.LoopEnds?
    || e.Create? || e.Register? || e.Shut? || e.Remove? || e.Return?
  }

  ghost predicate LoopAwaited(s: Server) {
    StopInv(s) && s.call.pc.AwaitingLoop? && s.call.within.None?
  }

  ghost predicate Closer(s: Server, e: Event, s': Server) {
    && Step(s, e, s') && UsualEvent(e) && LoopAwaited(s')
    && (|| Remaining(s'.tasks) < Remaining(s.tasks)
        || (Remaining(s'.tasks) == Remaining(s.tasks) && Ahead(s'.loop) < Ahead(s.loop)))
  }

  lemma {:induction false} LoopCloser(s: Server) returns (e: Event, s': Server)
    requires LoopAwaited(s) && !s.loop.Draining? && !s.loop.Stopped?
    ensures Closer(s, e, s')
  {
    hide StopInv, TaskStep, StopStep;
    Tracks(s);
    match s.loop {
      case Inserting(t) => e, s' := Insert, s.(tracked := s.tracked + {t}, loop := Releasing(t));
      case Releasing(t) =>
        e, s' := Release, (if s.tasks[t].pc.Gated? then Moved(s, t, Handshaking) else s).(loop := Accepting);
        if s.tasks[t].pc.Gated? {
          RemainingAt(s.tasks, t, s'.tasks[t]);
        }
      case Accepting => e, s' := SeeStop, s.(loop := Draining, accepting := false);
    }
    assert LoopStep(s, e, s');
    StepKeeps(s, e, s');
  }

  lemma {:induction false} SessionGoesOn(s: Server, t: nat) returns (e: Event, s': Server)
    requires TaskAt(s, t, Serving) && (s.tasks[t].session.Open? || s.tasks[t].session.Shut?)
    ensures TaskStep(s, e, s') && UsualEvent(e) && s'.call == s.call && s'.loop == s.loop
    ensures |s'.tasks| == |s.tasks| && s'.tasks == s.tasks[t := s'.tasks[t]]
    ensures Distance(s'.tasks[t]) < Distance(s.tasks[t])
  {
    if s.tasks[t].session.Open? {
      e, s' := Event.Shut(t), Phased(s, t, SessionPhase.Shut);
    } else {
      e, s' := Publish(t), Phased(s, t, SessionPhase.Closed);
    }
  }

  /** The next step of a task, or of its session. */
  lemma {:induction false} TaskEndsItself(s: Server, t: nat) returns (e: Event, s': Server)
    requires Tracked(s) && s.loop.Draining? && s.call.within.None?
    requires t < |s.tasks| && TaskInv(s, s.tasks[t]) && !s.tasks[t].pc.Joined?
    ensures Step(s, e, s') && UsualEvent(e) && s'.call == s.call && s'.loop == s.loop
    ensures |s'.tasks| == |s.tasks| && s'.tasks == s.tasks[t := s'.tasks[t]]
    ensures Distance(s'.tasks[t]) < Distance(s.tasks[t])
  {
    hide LoopStep, StopStep, CloseEvent;
    var task := s.tasks[t];
    if task.pc.Ended? {
      e := Join(t);
      s' := JoinedOne(s, t);
    } else if task.pc.Checked? {
      e, s' := Create(t), s.(tasks := s.tasks[t := Task(task.endpoint, Started, SessionPhase.Open)]);
      assert s' == Phased(Moved(s, t, Started), t, SessionPhase.Open);
    } else if task.pc.Started? {
      e, s' := Register(t), Moved(s, t, Serving);
    } else if task.pc.Serving? && !task.session.Closed? {
      e, s' := SessionGoesOn(s, t);
    } else if task.pc.Serving? {
      e, s' := Remove(t), Moved(s, t, Disconnected);
    } else {
      e, s' := Return(t), Moved(s, t, Ended);
    }
  }

  lemma {:induction false} TaskCloser(s: Server, t: nat) returns (e: Event, s': Server)
    requires LoopAwaited(s) && s.loop.Draining? && t < |s.tasks| && !s.tasks[t].pc.Joined?
    ensures Closer(s, e, s')
  {
    hide StopInv, Step, UsualEvent, Distance;
    Tracks(s);
    Parts(s);
    e, s' := TaskEndsItself(s, t);
    StepKeeps(s, e, s');
    RemainingAt(s.tasks, t, s'.tasks[t]);
  }

  lemma {:induction false} LoopAndStopEnd(s: Server) returns (run: seq<Server>, events: seq<Event>)
    requires LoopAwaited(s) && (s.loop.Draining? || s.loop.Stopped?)
    requires forall t :: 0 <= t < |s.tasks| ==> s.tasks[t].pc.Joined?
    ensures Steps(run, events) && run[0] == s && forall k :: 0 <= k < |events| ==> UsualEvent(events[k])
    ensures run[|events|].call.pc.Done?
  {
    hide TaskStep, StopInv;
    var s1 := s.(loop := Stopped);
    run, events := [s1, At(s1, Done)], [StopReturns];
    assert StepAt(run, events, 0);
    if s.loop.Draining? {
      assert Step(s, LoopEnds, s1);
      Prefixed(s, LoopEnds, run, events);
      run, events := [s] + run, [LoopEnds] + events;
    }
  }

  lemma {:induction false} LoopGoes(s: Server) returns (run: seq<Server>, events: seq<Event>)
    requires LoopAwaited(s)
    ensures Steps(run, events) && run[0] == s && forall k :: 0 <= k < |events| ==> UsualEvent(events[k])
    ensures run[|events|].call.pc.Done?
    decreases Remaining(s.tasks), Ahead(s.loop)
  {
    hide Step, StopInv, UsualEvent, Remaining;
    var e: Event;
    var s': Server;
    if !s.loop.Draining? && !s.loop.Stopped? {
      e, s' := LoopCloser(s);
    } else if t: nat :| s.loop.Draining? && t < |s.tasks| && !s.tasks[t].pc.Joined? {
      e, s' := TaskCloser(s, t);
    } else {
      Tracks(s);
      run, events := LoopAndStopEnd(s);
      return;
    }
    run, events := LoopGoes(s');
    Prefixed(s, e, run, events);
    run, events := [s] + run, [e] + events;
  }

  /** From every state after the call: `stop` awaited outside a hook returns once the connections under way have
      come to their ends, without any deadline. */
  lemma {:induction false} StopReturnsOutside(s: Server) returns (run: seq<Server>, events: seq<Event>)
    requires StopInv(s) && InProgress(s.call.pc) && s.call.within.None?
    ensures Steps(run, events) && run[0] == s && forall k :: 0 <= k < |events| ==> UsualEvent(events[k])
    ensures run[|events|].call.pc.Done?
    decreases match s.call.pc case Called => 2 case Marked => 1 case _ => 0
  {
    hide Step, StopInv, Unmoved;
    Parts(s);
    if s.call.pc.Called? || s.call.pc.Marked? {
      var e, s' := StopSignals(s);
      StepKeeps(s, e, s');
      run, events := StopReturnsOutside(s');
      Prefixed(s, e, run, events);
      run, events := [s] + run, [e] + events;
    } else if Collects(s.call.pc) {
      var first, closing := CloseSessionsReturns(s);
      AwaitsTheLoop(s, first[|closing|]);
      var rest, waiting := LoopGoes(first[|closing|]);
      Joins(first, closing, rest, waiting);
      run, events := first + rest[1..], closing + waiting;
    } else {
      run, events := LoopGoes(s);
    }
  }

  lemma {:induction false} AwaitsTheLoop(s: Server, s': Server)
    requires s.call.within.None? && StopInv(s') && Unmoved(s, s') && Waits(s'.call.pc)
    ensures LoopAwaited(s')
  {
    assert CallerInv(s');
  }
}
