/** The reconnecting client of `src/client.rs`: `start`, `stop` and the tasks of all generations race for
    one mutex. */
module Clients {
  import opened Texts

  datatype Stop = No | Notify | Quiet

  /** What the mutex guards, with the `connected` flag that is only changed under it; whether each session
      ever created is open; and for each task ever spawned, what its stop channel says and whether it was
      aborted. Task `k` is the one spawned by start number `k + 1`, of that generation. */
  datatype Shared = Shared(
    running: bool,
    generation: nat,
    task: Option<nat>,
    stop: Option<nat>,
    session: Option<nat>,
    connected: bool,
    open: seq<bool>,
    told: seq<Stop>,
    aborted: seq<bool>)

  function Closed(open: seq<bool>, session: Option<nat>): (r: seq<bool>)
    ensures |r| == |open|
  {
    if session.Some? && session.value < |open| then open[session.value := false] else open
  }

  /** `stop_locked`. */
  function AfterStopLocked(s: Shared, how: Stop): Shared {
    s.(running := false, stop := None, session := None,
       told := if s.stop.Some? && s.stop.value < |s.told| then s.told[s.stop.value := how] else s.told,
       open := Closed(s.open, s.session))
  }

  function AfterStop(s: Shared): Shared {
    AfterStopLocked(s, Notify).(connected := false)
  }

  function AfterStart(s: Shared): Shared {
    var quiet := AfterStopLocked(s, Quiet);
    quiet.(running := true, connected := false, generation := s.generation + 1,
           stop := Some(|s.told|), task := Some(|s.told|),
           told := quiet.told + [No],
           aborted := (if s.task.Some? && s.task.value < |s.aborted| then s.aborted[s.task.value := true]
                       else s.aborted) + [false])
  }

  /** Whether `set_session` is refused. */
  predicate Stale(s: Shared, generation: nat, session: Option<nat>) {
    s.generation != generation || (session.Some? && !s.running)
  }

  function AfterSetSession(s: Shared, generation: nat, session: Option<nat>): Shared {
    if Stale(s, generation, session) then s.(open := Closed(s.open, session))
    else s.(session := session, connected := session.Some?)
  }

  /** The state behind the mutex, with its operations. */
  class ClientState {
    var running: bool
    var generation: nat
    var task: Option<nat>
    var stop: Option<nat>
    var session: Option<nat>
    var connected: bool
    var open: seq<bool>
    var told: seq<Stop>
    var aborted: seq<bool>

    function View(): Shared
      reads this
    {
      Shared(running, generation, task, stop, session, connected, open, told, aborted)
    }

    constructor ()
      ensures View() == NewShared()
    {
      running, generation, connected := false, 0, false;
      task, stop, session := None, None, None;
      open, told, aborted := [], [], [];
    }

    method CloseSession(k: nat)
      modifies this`open
      ensures open == Closed(old(open), Some(k))
    {
      if k < |open| {
        open := open[k := false];
      }
    }

    method StopLocked(how: Stop)
      modifies this
      ensures View() == AfterStopLocked(old(View()), how)
    {
      running := false;
      if stop.Some? {
        if stop.value < |told| {
          told := told[stop.value := how];
        }
        stop := None;
      }
      if session.Some? {
        CloseSession(session.value);
        session := None;
      }
    }

    method Start()
      modifies this
      ensures View() == AfterStart(old(View()))
    {
      StopLocked(Quiet);
      if task.Some? {
        if task.value < |aborted| {
          aborted := aborted[task.value := true];
        }
        task := None;
      }
      running := true;
      connected := false;
      generation := generation + 1;
      stop := Some(|told|);
      task := Some(|told|);
      told := told + [No];
      aborted := aborted + [false];
    }

    method StopInner() returns (waitFor: Option<nat>)
      modifies this
      ensures View() == AfterStop(old(View())) && waitFor == old(task)
    {
      StopLocked(Notify);
      connected := false;
      waitFor := task;
    }

    method SetSession(g: nat, s: Option<nat>) returns (installed: bool)
      modifies this
      ensures View() == AfterSetSession(old(View()), g, s)
      ensures installed == !Stale(old(View()), g, s)
    {
      if generation != g || (s.Some? && !running) {
        if s.Some? {
          CloseSession(s.value);
        }
        return false;
      }
      connected := s.Some?;
      session := s;
      return true;
    }
  }

  function NewShared(): Shared {
    Shared(false, 0, None, None, None, false, [], [], [])
  }

  // ----- the tasks

  /** Where a connection task is. From `Connected` to `InHook` it holds the guard that closes its session when
      dropped. `Hooking` has read what the stop channel says and has not called the disconnect hook yet;
      nothing in between can interrupt it. */
  datatype Pc =
    | Connecting
    | Connected(session: nat)
    | Serving(session: nat)
    | Clearing(session: nat)
    | Notifying(session: nat)
    | Hooking(session: nat, how: Stop)
    | InHook(session: nat)
    | Deciding
    | Sleeping
    | Ended

  datatype Client = Client(shared: Shared, pcs: seq<Pc>)

  datatype Event =
    | Start
    | Stop
    | AbortTask(t: nat)
    | ConnectSucceeds(t: nat)
    | ConnectFails(t: nat)
    | Install(t: nat)
    | CloseInHook(t: nat)
    | SessionCloses(session: nat)
    | Leave(t: nat)
    | ClearSession(t: nat)
    | ReadHow(t: nat)
    | RunHook(t: nat)
    | Notified(t: nat)
    | Decide(t: nat)
    | Retry(t: nat)
    | SeeStop(t: nat)
    | DropTask(t: nat)

  predicate Holds(pc: Pc) {
    pc.Connected? || pc.Serving? || pc.Clearing? || pc.Notifying? || pc.Hooking? || pc.InHook?
  }

  function Guarded(pc: Pc): Option<nat> {
    if Holds(pc) then Some(pc.session) else None
  }

  predicate At(c: Client, t: nat) {
    t < |c.pcs| && |c.pcs| == |c.shared.told| == |c.shared.aborted|
  }

  function Move(c: Client, t: nat, pc: Pc): Client
    requires t < |c.pcs|
  {
    c.(pcs := c.pcs[t := pc])
  }

  function ClosedIn(c: Client, session: Option<nat>): Client {
    c.(shared := c.shared.(open := Closed(c.shared.open, session)))
  }

  /** The end of a task, or of one turn of its loop: the guard closes the session. */
  function Released(c: Client, t: nat, pc: Pc): Client
    requires t < |c.pcs|
  {
    Move(ClosedIn(c, Guarded(c.pcs[t])), t, pc)
  }

  /** A point at which an aborted task can be dropped: it waits for something. */
  predicate Waits(pc: Pc) {
    pc.Connecting? || pc.Serving? || pc.InHook? || pc.Sleeping?
  }

  predicate Step(c: Client, e: Event, c': Client) {
    match e
    case Start => c' == Client(AfterStart(c.shared), c.pcs + [Connecting])
    case Stop => c' == c.(shared := AfterStop(c.shared))
    case AbortTask(t) =>
      && At(c, t) && c.shared.told[t] != No
      && c' == c.(shared := c.shared.(aborted := c.shared.aborted[t := true]))
    case ConnectSucceeds(t) =>
      && At(c, t) && c.pcs[t].Connecting?
      && c' == Move(c, t, Connected(|c.shared.open|)).(shared := c.shared.(open := c.shared.open + [true]))
    case ConnectFails(t) => At(c, t) && c.pcs[t].Connecting? && c' == Move(c, t, Deciding)
    case Install(t) =>
      && At(c, t) && c.pcs[t].Connected?
      && var session := Some(c.pcs[t].session);
         c' == if Stale(c.shared, t + 1, session)
               then Released(c.(shared := AfterSetSession(c.shared, t + 1, session)), t, Ended)
               else Move(c.(shared := AfterSetSession(c.shared, t + 1, session)), t, Serving(c.pcs[t].session))
    case CloseInHook(t) => At(c, t) && c.pcs[t].Serving? && c' == ClosedIn(c, Some(c.pcs[t].session))
    case SessionCloses(session) => c' == ClosedIn(c, Some(session))
    case Leave(t) =>
      && At(c, t) && c.pcs[t].Serving? && c.pcs[t].session < |c.shared.open|
      && (!c.shared.open[c.pcs[t].session] || c.shared.told[t] != No)
      && c' == Move(ClosedIn(c, Some(c.pcs[t].session)), t, Clearing(c.pcs[t].session))
    case ClearSession(t) =>
      && At(c, t) && c.pcs[t].Clearing?
      && c' == Move(c.(shared := AfterSetSession(c.shared, t + 1, None)), t, Notifying(c.pcs[t].session))
    case ReadHow(t) =>
      At(c, t) && c.pcs[t].Notifying? && c' == Move(c, t, Hooking(c.pcs[t].session, c.shared.told[t]))
    case RunHook(t) =>
      && At(c, t) && c.pcs[t].Hooking? && c.pcs[t].how != Quiet
      && c' == Move(c, t, InHook(c.pcs[t].session))
    case Notified(t) =>
      At(c, t) && (c.pcs[t].Hooking? || c.pcs[t].InHook?) && c' == Released(c, t, Deciding)
    case Decide(t) =>
      At(c, t) && c.pcs[t].Deciding? && c' == Move(c, t, if c.shared.told[t] != No then Ended else Sleeping)
    case Retry(t) => At(c, t) && c.pcs[t].Sleeping? && c' == Move(c, t, Connecting)
    case SeeStop(t) =>
      At(c, t) && (c.pcs[t].Connecting? || c.pcs[t].Sleeping?) && c.shared.told[t] != No && c' == Move(c, t, Ended)
    case DropTask(t) =>
      At(c, t) && Waits(c.pcs[t]) && c.shared.aborted[t] && c' == Released(c, t, Ended)
  }

  ghost predicate StepAt(run: seq<Client>, events: seq<Event>, k: nat)
    requires k < |events| && |run| == |events| + 1
  {
    Step(run[k], events[k], run[k + 1])
  }

  ghost predicate Run(run: seq<Client>, events: seq<Event>) {
    && |run| == |events| + 1
    && run[0] == Client(NewShared(), [])
    && forall k :: 0 <= k < |events| ==> StepAt(run, events, k)
  }

  // ----- what every step keeps

  /** Task `t` serves session `k` for the current generation. */
  predicate Serves(c: Client, t: nat, k: nat) {
    t < |c.pcs| && t + 1 == c.shared.generation && (c.pcs[t] == Serving(k) || c.pcs[t] == Clearing(k))
  }

  ghost predicate ClientInv(c: Client) {
    var s := c.shared;
    && |c.pcs| == |s.told| == |s.aborted| == s.generation
    // installed means running, and connected; the session is in the hands of the current task
    && s.connected == s.session.Some?
    && (s.session.Some? ==> s.running && s.generation > 0 && Serves(c, s.generation - 1, s.session.value))
    // one session per guard, and every open session has one
    && (forall t :: 0 <= t < |c.pcs| && Holds(c.pcs[t]) ==> c.pcs[t].session < |s.open|)
    && (forall k :: 0 <= k < |s.open| && s.open[k] ==> Owned(c, k))
    // every task but that of a running client has been told to stop
    && (s.stop.Some? <==> s.running)
    && (s.running ==> s.generation > 0 && s.stop == Some(s.generation - 1) && s.told[s.generation - 1] == No)
    && (forall t :: 0 <= t < |s.told| && s.told[t] == No ==> s.running && t + 1 == s.generation)
    && (forall t :: 0 <= t < |s.aborted| && s.aborted[t] ==> s.told[t] != No)
    && s.task == (if s.generation > 0 then Some(s.generation - 1) else None)
  }

  predicate Owned(c: Client, k: nat) {
    exists t :: 0 <= t < |c.pcs| && Guarded(c.pcs[t]) == Some(k)
  }

  /** A session that is still open after task `t` moved was open before, and is still guarded. */
  lemma {:induction false} OwnedMove(c: Client, c': Client, t: nat)
    requires t < |c.pcs| == |c'.pcs| && c'.pcs == c.pcs[t := c'.pcs[t]] && |c'.shared.open| == |c.shared.open|
    requires forall k :: 0 <= k < |c.shared.open| && c.shared.open[k] ==> Owned(c, k)
    requires forall k :: 0 <= k < |c.shared.open| && c'.shared.open[k] ==> c.shared.open[k]
    requires forall k :: 0 <= k < |c.shared.open| && c'.shared.open[k] && Guarded(c.pcs[t]) == Some(k)
                         ==> Guarded(c'.pcs[t]) == Some(k)
    ensures forall k :: 0 <= k < |c'.shared.open| && c'.shared.open[k] ==> Owned(c', k)
  {
    forall k | 0 <= k < |c'.shared.open| && c'.shared.open[k] ensures Owned(c', k) {
      assert Owned(c, k);
      var u :| 0 <= u < |c.pcs| && Guarded(c.pcs[u]) == Some(k);
      assert Guarded(c'.pcs[u]) == Some(k);
    }
  }

  lemma {:induction false} StartKeeps(c: Client)
    requires ClientInv(c)
    ensures ClientInv(Client(AfterStart(c.shared), c.pcs + [Connecting]))
  {
    var c' := Client(AfterStart(c.shared), c.pcs + [Connecting]);
    forall k | 0 <= k < |c'.shared.open| && c'.shared.open[k] ensures Owned(c', k) {
      assert Owned(c, k);
      var u :| 0 <= u < |c.pcs| && Guarded(c.pcs[u]) == Some(k);
      assert Guarded(c'.pcs[u]) == Some(k);
    }
  }

  lemma {:induction false} StopKeeps(c: Client)
    requires ClientInv(c)
    ensures ClientInv(c.(shared := AfterStop(c.shared)))
  {
    var c' := c.(shared := AfterStop(c.shared));
    forall k | 0 <= k < |c'.shared.open| && c'.shared.open[k] ensures Owned(c', k) {
      assert Owned(c, k);
    }
  }

  lemma {:induction false} ConnectKeeps(c: Client, t: nat, c': Client)
    requires ClientInv(c) && Step(c, ConnectSucceeds(t), c')
    ensures ClientInv(c')
  {
    forall k | 0 <= k < |c'.shared.open| && c'.shared.open[k] ensures Owned(c', k) {
      if k == |c.shared.open| {
        assert Guarded(c'.pcs[t]) == Some(k);
      } else {
        assert Owned(c, k);
        var u :| 0 <= u < |c.pcs| && Guarded(c.pcs[u]) == Some(k);
        assert Guarded(c'.pcs[u]) == Some(k);
      }
    }
  }

  lemma {:induction false} InstallKeeps(c: Client, t: nat, c': Client)
    requires ClientInv(c) && Step(c, Install(t), c')
    ensures ClientInv(c')
  {
    hide AfterStart, AfterStop, AfterStopLocked, Owned;
    OwnedMove(c, c', t);
  }

  lemma {:induction false} TaskKeeps(c: Client, e: Event, c': Client)
    requires ClientInv(c) && Step(c, e, c')
    requires e.Leave? || e.ClearSession?
    ensures ClientInv(c')
  {
    hide AfterStart, AfterStop, AfterStopLocked, Owned;
    OwnedMove(c, c', e.t);
  }

  lemma {:induction false} HookKeeps(c: Client, e: Event, c': Client)
    requires ClientInv(c) && Step(c, e, c')
    requires e.ReadHow? || e.RunHook?
    ensures ClientInv(c')
  {
    hide AfterStart, AfterStop, AfterStopLocked, AfterSetSession, Closed, Owned;
    OwnedMove(c, c', e.t);
  }

  lemma {:induction false} GuardKeeps(c: Client, e: Event, c': Client)
    requires ClientInv(c) && Step(c, e, c')
    requires e.Notified? || e.DropTask?
    ensures ClientInv(c')
  {
    hide AfterStart, AfterStop, AfterStopLocked, AfterSetSession, Owned;
    OwnedMove(c, c', e.t);
  }

  lemma {:induction false} PlainKeeps(c: Client, e: Event, c': Client)
    requires ClientInv(c) && Step(c, e, c')
    requires e.ConnectFails? || e.Decide? || e.Retry? || e.SeeStop?
    ensures ClientInv(c')
  {
    hide AfterStart, AfterStop, AfterStopLocked, Closed, AfterSetSession, Owned;
    OwnedMove(c, c', e.t);
  }

  lemma {:induction false} OutsideKeeps(c: Client, e: Event, c': Client)
    requires ClientInv(c) && Step(c, e, c')
    requires e.AbortTask? || e.CloseInHook? || e.SessionCloses?
    ensures ClientInv(c')
  {
    forall k | 0 <= k < |c'.shared.open| && c'.shared.open[k] ensures Owned(c', k) {
      assert Owned(c, k);
    }
  }

  lemma {:induction false} StepKeeps(c: Client, e: Event, c': Client)
    requires ClientInv(c) && Step(c, e, c')
    ensures ClientInv(c')
  {
    hide ClientInv;
    match e {
      case Start => StartKeeps(c);
      case Stop => StopKeeps(c);
      case ConnectSucceeds(t) => ConnectKeeps(c, t, c');
      case Install(t) => InstallKeeps(c, t, c');
      case AbortTask(_) => OutsideKeeps(c, e, c');
      case CloseInHook(_) => OutsideKeeps(c, e, c');
      case SessionCloses(_) => OutsideKeeps(c, e, c');
      case Leave(_) => TaskKeeps(c, e, c');
      case ClearSession(_) => TaskKeeps(c, e, c');
      case Notified(_) => GuardKeeps(c, e, c');
      case DropTask(_) => GuardKeeps(c, e, c');
      case ReadHow(_) => HookKeeps(c, e, c');
      case RunHook(_) => HookKeeps(c, e, c');
      case ConnectFails(_) => PlainKeeps(c, e, c');
      case Decide(_) => PlainKeeps(c, e, c');
      case Retry(_) => PlainKeeps(c, e, c');
      case SeeStop(_) => PlainKeeps(c, e, c');
    }
  }

  lemma {:induction false} RunKeeps(run: seq<Client>, events: seq<Event>, k: nat)
    requires Run(run, events) && k < |run|
    ensures ClientInv(run[k])
  {
    hide Step, ClientInv;
    if k == 0 {
      InitialKeeps();
    } else {
      RunKeeps(run, events, k - 1);
      assert StepAt(run, events, k - 1);
      StepKeeps(run[k - 1], events[k - 1], run[k]);
    }
  }

  lemma {:induction false} InitialKeeps()
    ensures ClientInv(Client(NewShared(), []))
  {
  }

  // ----- what it means

  /** Over all interleavings of `start`, `stop`, reconnects and late tasks: an installed session implies a
      running client and is in the hands of the task of the current generation; the flag `connected` says
      exactly whether one is installed; every open session is in the hands of some task. */
  lemma {:induction false} InstalledIsCurrent(run: seq<Client>, events: seq<Event>, k: nat)
    requires Run(run, events) && k < |run|
    ensures var s := run[k].shared;
            && s.connected == s.session.Some?
            && (s.session.Some? ==> s.running && s.generation > 0 && Serves(run[k], s.generation - 1, s.session.value))
            && (forall m :: 0 <= m < |s.open| && s.open[m] ==> Owned(run[k], m))
  {
    hide Run;
    RunKeeps(run, events, k);
  }

  /** A task that was replaced, or whose client was stopped, installs nothing: the state stays as it is,
      the session it brought is closed and the task ends. Otherwise its session is installed. */
  lemma {:induction false} InstallOnlyCurrent(c: Client, t: nat, c': Client)
    requires ClientInv(c) && Step(c, Install(t), c')
    ensures var current := t + 1 == c.shared.generation && c.shared.running;
            && (current ==> c'.shared == c.shared.(session := Some(c.pcs[t].session), connected := true)
                            && c'.pcs[t].Serving?)
            && (!current ==> c'.shared == c.shared.(open := c'.shared.open) && c'.pcs[t].Ended?
                             && |c'.shared.open| == |c.shared.open| && !c'.shared.open[c.pcs[t].session]
                             && forall m :: 0 <= m < |c.shared.open| && m != c.pcs[t].session
                                            ==> c'.shared.open[m] == c.shared.open[m])
  {
  }

  /** Nor does it clear the session of a later generation. */
  lemma {:induction false} ClearOnlyCurrent(c: Client, t: nat, c': Client)
    requires ClientInv(c) && Step(c, ClearSession(t), c')
    ensures t + 1 != c.shared.generation ==> c'.shared == c.shared
    ensures t + 1 == c.shared.generation ==> c'.shared == c.shared.(session := None, connected := false)
  {
  }

  /** No step opens a session again. */
  lemma {:induction false} OpenFalls(c: Client, e: Event, c': Client, m: nat)
    requires Step(c, e, c') && m < |c.shared.open| && !c.shared.open[m]
    ensures m < |c'.shared.open| && !c'.shared.open[m]
  {
  }

  lemma {:induction false} ClosedStays(run: seq<Client>, events: seq<Event>, j: nat, k: nat, m: nat)
    requires Run(run, events) && j <= k < |run| && m < |run[j].shared.open| && !run[j].shared.open[m]
    ensures m < |run[k].shared.open| && !run[k].shared.open[m]
  {
    hide Step;
    if j < k {
      ClosedStays(run, events, j, k - 1, m);
      assert StepAt(run, events, k - 1);
      OpenFalls(run[k - 1], events[k - 1], run[k], m);
    }
  }

  /** Task `t` belongs to the current generation of a client that, for installing, must also be running. */
  predicate IsCurrent(s: Shared, e: Event, t: nat) {
    t + 1 == s.generation && (e.Install? ==> s.running)
  }

  /** In every run: the task of the current generation installs and clears its session. A task that was
      replaced, or whose client was stopped, does neither, and the session it tried to install is closed
      from then on. */
  lemma {:induction false} OnlyCurrentTaskChanges(run: seq<Client>, events: seq<Event>, k: nat, m: nat, t: nat)
    requires Run(run, events) && k < |events| && k < m < |run|
    requires events[k] == Install(t) || events[k] == ClearSession(t)
    ensures t < |run[k].pcs| && (events[k].Install? ==> run[k].pcs[t].Connected?)
    ensures var s, s', e := run[k].shared, run[k + 1].shared, events[k];
            if IsCurrent(s, e, t) then
              && (e.Install? ==> s' == s.(session := Some(run[k].pcs[t].session), connected := true))
              && (e.ClearSession? ==> s' == s.(session := None, connected := false))
            else
              && s' == s.(open := s'.open)
              && (e.ClearSession? ==> s'.open == s.open)
              && (e.Install? ==>
                    && run[k].pcs[t].session < |run[m].shared.open|
                    && !run[m].shared.open[run[k].pcs[t].session])
  {
    hide ClientInv, Stale, Released;
    RunKeeps(run, events, k);
    assert StepAt(run, events, k);
    if events[k].Install? {
      InstallOnlyCurrent(run[k], t, run[k + 1]);
      InstallHolds(run[k], t);
      if !IsCurrent(run[k].shared, events[k], t) {
        ClosedStays(run, events, k + 1, m, run[k].pcs[t].session);
      }
    } else {
      ClearOnlyCurrent(run[k], t, run[k + 1]);
    }
  }

  lemma {:induction false} InstallHolds(c: Client, t: nat)
    requires ClientInv(c) && t < |c.pcs| && c.pcs[t].Connected?
    ensures c.pcs[t].session < |c.shared.open|
  {
  }

  /** From `stop` until the next `start` nothing is installed. */
  lemma {:induction false} NothingAfterStop(run: seq<Client>, events: seq<Event>, j: nat, k: nat)
    requires Run(run, events) && j <= k < |events| && events[j].Stop?
    requires forall m :: j < m <= k ==> !events[m].Start?
    ensures !run[k + 1].shared.running && run[k + 1].shared.session.None? && !run[k + 1].shared.connected
  {
    hide Step, ClientInv;
    assert StepAt(run, events, k);
    if j < k {
      NothingAfterStop(run, events, j, k - 1);
      NotStarted(run[k], events[k], run[k + 1]);
    } else {
      Stopped(run[k], run[k + 1]);
    }
    RunKeeps(run, events, k + 1);
    NotRunning(run[k + 1]);
  }

  lemma {:induction false} Stopped(c: Client, c': Client)
    requires Step(c, Stop, c')
    ensures !c'.shared.running
  {
  }

  lemma {:induction false} NotRunning(c: Client)
    requires ClientInv(c) && !c.shared.running
    ensures c.shared.session.None? && !c.shared.connected
  {
  }

  lemma {:induction false} NotStarted(c: Client, e: Event, c': Client)
    requires Step(c, e, c') && !e.Start? && !c.shared.running
    ensures !c'.shared.running
  {
  }

  // ----- which tasks run the disconnect hook

  /** What a task was told when it was stopped or replaced is never changed. */
  lemma {:induction false} ToldKept(c: Client, e: Event, c': Client, t: nat)
    requires ClientInv(c) && Step(c, e, c') && t < |c.shared.told| && c.shared.told[t] != No
    ensures t < |c'.shared.told| && c'.shared.told[t] == c.shared.told[t]
  {
    hide Owned, Closed, Serves;
  }

  lemma {:induction false} ReplacedQuietly(c: Client, c': Client)
    requires ClientInv(c) && Step(c, Start, c') && c.shared.running
    ensures |c'.shared.told| == c.shared.generation + 1 && c'.shared.told[c.shared.generation - 1] == Quiet
    ensures |c'.pcs| == c.shared.generation + 1 && c'.pcs == c.pcs + [Connecting]
    ensures c.shared.generation <= |c'.shared.aborted| && c'.shared.aborted[c.shared.generation - 1]
    ensures c'.shared.running && !c'.shared.connected && c'.shared.session.None?
    ensures c'.shared.generation == c.shared.generation + 1
    ensures c.shared.session.Some? ==>
              c.shared.session.value < |c'.shared.open| && !c'.shared.open[c.shared.session.value]
  {
  }

  /** Whatever the task of the generation before is doing, also when it was stopped and only its hook still
      runs: `start` aborts it, and where it waits for something it is dropped, hook and all, with its session. */
  lemma {:induction false} StartCancels(run: seq<Client>, events: seq<Event>, j: nat)
    requires Run(run, events) && j < |events| && events[j].Start? && run[j].shared.generation > 0
    ensures var c, t := run[j + 1], run[j].shared.generation - 1;
            && t < |run[j].pcs| < |c.pcs| && c.pcs[t] == run[j].pcs[t]
            && t < |c.shared.aborted| && c.shared.aborted[t]
            && (Waits(c.pcs[t]) ==> Step(c, DropTask(t), Released(c, t, Ended)))
            && (Holds(c.pcs[t]) ==> c.pcs[t].session < |c.shared.open|
                                    && !Released(c, t, Ended).shared.open[c.pcs[t].session])
  {
    RunKeeps(run, events, j);
    RunKeeps(run, events, j + 1);
    assert StepAt(run, events, j);
  }

  /** The task is about to call the disconnect hook: it has read `how` already, and is past every point at
      which it could be interrupted. */
  predicate AboutToNotify(pc: Pc) {
    pc.Hooking? && pc.how != Quiet
  }

  /** A task told to stay quiet gets into that position in no step; it can only leave it. */
  lemma {:induction false} QuietStays(c: Client, e: Event, c': Client, t: nat)
    requires ClientInv(c) && Step(c, e, c') && t < |c.pcs| && c.shared.told[t] == Quiet
    ensures t < |c'.pcs| && |c'.shared.told| == |c'.pcs| && c'.shared.told[t] == Quiet
    ensures AboutToNotify(c'.pcs[t]) ==> c'.pcs[t] == c.pcs[t]
    ensures e == RunHook(t) ==> AboutToNotify(c.pcs[t])
  {
    hide Owned, Closed, Serves;
    ToldKept(c, e, c', t);
  }

  /** What follows a client's state. */
  ghost predicate Continues(c: Client, run: seq<Client>, events: seq<Event>) {
    |run| == |events| + 1 && run[0] == c && forall k :: 0 <= k < |events| ==> StepAt(run, events, k)
  }

  ghost predicate HookFollows(c: Client, run: seq<Client>, events: seq<Event>, t: nat) {
    Continues(c, run, events) && RunHook(t) in events
  }

  ghost predicate HookCanFollow(c: Client, t: nat) {
    exists run, events :: HookFollows(c, run, events, t)
  }

  lemma {:induction false} QuietTaskHooks(c: Client, run: seq<Client>, events: seq<Event>, t: nat, k: nat)
    requires ClientInv(c) && Continues(c, run, events) && k <= |events|
    requires t < |c.pcs| && c.shared.told[t] == Quiet
    ensures ClientInv(run[k]) && t < |run[k].pcs| && run[k].shared.told[t] == Quiet
    ensures AboutToNotify(run[k].pcs[t]) ==> AboutToNotify(c.pcs[t])
  {
    hide Step, AboutToNotify;
    SameLengths(run[0]);
    if k > 0 {
      QuietTaskHooks(c, run, events, t, k - 1);
      assert StepAt(run, events, k - 1);
      StepKeeps(run[k - 1], events[k - 1], run[k]);
      SameLengths(run[k]);
      QuietStays(run[k - 1], events[k - 1], run[k], t);
    }
  }

  /** `start` replaces a running client. Its task can still run the disconnect hook afterwards if and only if
      it had read what the stop channel said before, and had not called the hook yet. */
  lemma {:induction false} ReplacedHookExactly(run: seq<Client>, events: seq<Event>, j: nat, t: nat)
    requires Run(run, events) && j < |events| && events[j].Start?
    requires run[j].shared.running && t + 1 == run[j].shared.generation
    ensures t < |run[j].pcs|
    ensures HookCanFollow(run[j + 1], t) <==> AboutToNotify(run[j].pcs[t])
    ensures var s, s' := run[j].shared, run[j + 1].shared;
            && t < |s'.told| && s'.told[t] == Quiet && t < |s'.aborted| && s'.aborted[t]
            && s'.running && !s'.connected && s'.session.None? && s'.generation == s.generation + 1
            && |run[j + 1].pcs| == |run[j].pcs| + 1 && run[j + 1].pcs[t + 1] == Connecting
            && (s.session.Some? ==> s.session.value < |s'.open| && !s'.open[s.session.value])
  {
    hide ClientInv, AboutToNotify;
    RunKeeps(run, events, j);
    RunKeeps(run, events, j + 1);
    assert StepAt(run, events, j);
    SameLengths(run[j]);
    ReplacedQuietly(run[j], run[j + 1]);
    var c := run[j + 1];
    if more, steps :| HookFollows(c, more, steps, t) {
      var k: nat :| k < |steps| && steps[k] == RunHook(t);
      QuietTaskHooks(c, more, steps, t, k);
      assert StepAt(more, steps, k);
      QuietStays(more[k], steps[k], more[k + 1], t);
    }
    if AboutToNotify(c.pcs[t]) {
      SameLengths(c);
      var c' := HookRuns(c, t);
      assert StepAt([c, c'], [RunHook(t)], 0);
      assert HookFollows(c, [c, c'], [RunHook(t)], t);
    }
  }

  lemma {:induction false} HookRuns(c: Client, t: nat) returns (c': Client)
    requires ClientInv(c) && t < |c.pcs| && AboutToNotify(c.pcs[t])
    ensures Step(c, RunHook(t), c')
  {
    c' := Move(c, t, InHook(c.pcs[t].session));
  }

  /** So the silence that `start` promises has a gap. Here the connection drops by itself, its task reads that
      nobody has stopped the client, `start` replaces it, and then the task runs the hook. */
  lemma {:induction false} HookAfterReplacement() returns (run: seq<Client>, events: seq<Event>)
    ensures Run(run, events) && |events| == 9
    ensures events[7].Start? && run[7].shared.running && run[7].shared.generation == 1 && events[8] == RunHook(0)
  {
    var c0 := Client(NewShared(), []);
    var c1 := Client(AfterStart(c0.shared), [Connecting]);
    var c2 := Move(c1, 0, Connected(0)).(shared := c1.shared.(open := [true]));
    var c3 := Move(c2, 0, Serving(0)).(shared := c2.shared.(session := Some(0), connected := true));
    var c4 := ClosedIn(c3, Some(0));
    var c5 := Move(c4, 0, Clearing(0));
    var c6 := Move(c5, 0, Notifying(0)).(shared := c5.shared.(session := None, connected := false));
    var c7 := Move(c6, 0, Hooking(0, No));
    var c8 := Client(AfterStart(c7.shared), c7.pcs + [Connecting]);
    var c9 := Move(c8, 0, InHook(0));
    run := [c0, c1, c2, c3, c4, c5, c6, c7, c8, c9];
    events := [Start, ConnectSucceeds(0), Install(0), SessionCloses(0), Leave(0), ClearSession(0), ReadHow(0), Start,
               RunHook(0)];
    assert c0.pcs + [Connecting] == [Connecting] && c1.shared.open + [true] == [true];
    assert ClosedIn(c4, Some(0)) == c4;
  }

  // ----- a stopped task ends

  function StepsLeft(pc: Pc): nat {
    match pc
    case Connected(_) => 1
    case Serving(_) => 5
    case Clearing(_) => 4
    case Notifying(_) => 3
    case Hooking(_, _) => 2
    case InHook(_) => 2
    case Connecting => 1
    case Deciding => 1
    case Sleeping => 1
    case Ended => 0
  }

  function NextEvent(pc: Pc, t: nat): Event {
    match pc
    case Connected(_) => Install(t)
    case Serving(_) => Leave(t)
    case Clearing(_) => ClearSession(t)
    case Notifying(_) => ReadHow(t)
    case Hooking(_, _) => Notified(t)
    case InHook(_) => Notified(t)
    case Deciding => Decide(t)
    case _ => SeeStop(t)
  }

  lemma {:induction false} StoppedTaskMoves(c: Client, t: nat) returns (c': Client)
    requires ClientInv(c) && t < |c.pcs| && c.shared.told[t] != No && !c.pcs[t].Ended?
    ensures Step(c, NextEvent(c.pcs[t], t), c')
    ensures |c'.pcs| == |c.pcs| && c'.shared.told == c.shared.told && StepsLeft(c'.pcs[t]) < StepsLeft(c.pcs[t])
  {
    c' := match c.pcs[t]
          case Connected(k) => Released(c.(shared := AfterSetSession(c.shared, t + 1, Some(k))), t, Ended)
          case Serving(k) => Move(ClosedIn(c, Some(k)), t, Clearing(k))
          case Clearing(k) => Move(c.(shared := AfterSetSession(c.shared, t + 1, None)), t, Notifying(k))
          case Notifying(k) => Move(c, t, Hooking(k, c.shared.told[t]))
          case Hooking(_, _) => Released(c, t, Deciding)
          case InHook(_) => Released(c, t, Deciding)
          case Connecting => Move(c, t, Ended)
          case Deciding => Move(c, t, Ended)
          case Sleeping => Move(c, t, Ended)
          case Ended => c;
  }

  /** Every task that was told to stop ends by at most five steps of its own, whatever its state and that
      of the client, and with it goes its session. */
  lemma {:induction false} StoppedTaskEnds(c: Client, t: nat) returns (run: seq<Client>, events: seq<Event>)
    requires ClientInv(c) && t < |c.pcs| && c.shared.told[t] != No
    ensures |run| == |events| + 1 && run[0] == c && |events| <= 5
    ensures forall k :: 0 <= k < |events| ==> StepAt(run, events, k)
    ensures forall k :: 0 <= k < |events| ==> t < |run[k].pcs| && events[k] == NextEvent(run[k].pcs[t], t)
    ensures var last := run[|events|]; ClientInv(last) && t < |last.pcs| && last.pcs[t].Ended?
    ensures |events| <= StepsLeft(c.pcs[t])
    decreases StepsLeft(c.pcs[t])
  {
    hide Step, ClientInv;
    if c.pcs[t].Ended? {
      return [c], [];
    }
    var c' := StoppedTaskMoves(c, t);
    StepKeeps(c, NextEvent(c.pcs[t], t), c');
    SameLengths(c');
    var rest, tail := StoppedTaskEnds(c', t);
    run, events := [c] + rest, [NextEvent(c.pcs[t], t)] + tail;
    forall k | 0 <= k < |events| ensures StepAt(run, events, k) {
      if k > 0 {
        assert StepAt(rest, tail, k - 1);
      }
    }
  }

  lemma {:induction false} SameLengths(c: Client)
    requires ClientInv(c)
    ensures |c.pcs| == |c.shared.told|
  {
  }

  /** Once a stopped client's tasks have ended, no session of it is open. */
  lemma {:induction false} NoSessionOutlivesTasks(run: seq<Client>, events: seq<Event>, k: nat, m: nat)
    requires Run(run, events) && k < |run| && m < |run[k].shared.open|
    requires forall t :: 0 <= t < |run[k].pcs| ==> run[k].pcs[t].Ended?
    ensures !run[k].shared.open[m] && run[k].shared.session.None?
  {
    hide Run;
    RunKeeps(run, events, k);
    assert !Owned(run[k], m);
  }

  // ----- a running client never gives up

  ghost predicate NoneGivesUp(c: Client) {
    forall t :: 0 <= t < |c.pcs| && t < |c.shared.told| && c.shared.told[t] == No ==> !c.pcs[t].Ended?
  }

  lemma {:induction false} StepGoesOn(c: Client, e: Event, c': Client)
    requires ClientInv(c) && NoneGivesUp(c) && Step(c, e, c')
    ensures NoneGivesUp(c')
  {
    hide Owned, Serves, Closed;
  }

  /** In every run, only a task that was told to stop ends; so the current task of a running client is always
      alive, however often its connection is lost or cannot be made. */
  lemma {:induction false} RunningIsAlive(run: seq<Client>, events: seq<Event>, k: nat)
    requires Run(run, events) && k < |run|
    ensures forall t :: 0 <= t < |run[k].pcs| && t < |run[k].shared.told| && run[k].shared.told[t] == No ==>
              !run[k].pcs[t].Ended?
    ensures run[k].shared.running ==>
              var n := run[k].shared.generation;
              0 < n == |run[k].pcs| && |run[k].shared.told| == n
              && run[k].shared.told[n - 1] == No && !run[k].pcs[n - 1].Ended?
  {
    hide Step;
    RunKeeps(run, events, k);
    if k > 0 {
      RunningIsAlive(run, events, k - 1);
      RunKeeps(run, events, k - 1);
      assert StepAt(run, events, k - 1);
      StepGoesOn(run[k - 1], events[k - 1], run[k]);
    }
  }

  /** The task has no connection, or that connection is closed. */
  predicate Disconnected(c: Client, t: nat) {
    t < |c.pcs| && !c.pcs[t].Connected? && !c.pcs[t].Ended?
    && (c.pcs[t].Serving? ==> c.pcs[t].session < |c.shared.open| && !c.shared.open[c.pcs[t].session])
  }

  /** The steps until a task connects again. */
  function StepsToConnect(pc: Pc): nat {
    match pc
    case Serving(_) => 6
    case Clearing(_) => 5
    case Notifying(_) => 4
    case Hooking(_, _) => 3
    case InHook(_) => 3
    case Deciding => 2
    case Sleeping => 1
    case _ => 0
  }

  predicate RetryEvent(e: Event, t: nat) {
    e in {Leave(t), ClearSession(t), ReadHow(t), Notified(t), Decide(t), Retry(t)}
  }

  lemma {:induction false} RetryMoves(c: Client, t: nat) returns (e: Event, c': Client)
    requires ClientInv(c) && Disconnected(c, t) && !c.pcs[t].Connecting? && c.shared.told[t] == No
    ensures Step(c, e, c') && RetryEvent(e, t) && Disconnected(c', t)
    ensures c'.shared.told == c.shared.told && c'.shared.running && |c'.pcs| == |c.pcs|
    ensures StepsToConnect(c'.pcs[t]) < StepsToConnect(c.pcs[t])
  {
    match c.pcs[t] {
      case Serving(k) => e, c' := Leave(t), Move(ClosedIn(c, Some(k)), t, Clearing(k));
      case Clearing(k) =>
        e, c' := ClearSession(t), Move(c.(shared := AfterSetSession(c.shared, t + 1, None)), t, Notifying(k));
      case Notifying(k) => e, c' := ReadHow(t), Move(c, t, Hooking(k, No));
      case Hooking(_, _) => e, c' := Notified(t), Released(c, t, Deciding);
      case InHook(_) => e, c' := Notified(t), Released(c, t, Deciding);
      case Deciding => e, c' := Decide(t), Move(c, t, Sleeping);
      case Sleeping => e, c' := Retry(t), Move(c, t, Connecting);
    }
  }

  /** Whenever the current task of a running client has lost its connection, or could not make one, it gets
      to connecting again by at most six steps of its own. */
  lemma {:induction false} Reconnects(c: Client, t: nat) returns (run: seq<Client>, events: seq<Event>)
    requires ClientInv(c) && Disconnected(c, t) && c.shared.told[t] == No
    ensures |run| == |events| + 1 && run[0] == c && |events| <= StepsToConnect(c.pcs[t]) <= 6
    ensures forall k :: 0 <= k < |events| ==> StepAt(run, events, k) && RetryEvent(events[k], t)
    ensures var last := run[|events|];
            ClientInv(last) && t < |last.pcs| && last.pcs[t].Connecting?
            && last.shared.told == c.shared.told && last.shared.running
    decreases StepsToConnect(c.pcs[t])
  {
    hide Step, ClientInv, RetryEvent;
    if c.pcs[t].Connecting? {
      ToldNoRuns(c, t);
      return [c], [];
    }
    var e, c' := RetryMoves(c, t);
    StepKeeps(c, e, c');
    SameLengths(c');
    var rest, tail := Reconnects(c', t);
    run, events := [c] + rest, [e] + tail;
    forall k | 0 <= k < |events| ensures StepAt(run, events, k) && RetryEvent(events[k], t) {
      if k > 0 {
        assert StepAt(rest, tail, k - 1);
      }
    }
  }

  lemma {:induction false} ToldNoRuns(c: Client, t: nat)
    requires ClientInv(c) && t < |c.pcs| && c.shared.told[t] == No
    ensures c.shared.running && t + 1 == c.shared.generation
  {
  }

  /** And when the connection is made, it is installed: the client is connected again, by a new open session. */
  lemma {:induction false} ConnectsAgain(c: Client, t: nat) returns (c1: Client, c2: Client)
    requires ClientInv(c) && t < |c.pcs| && c.pcs[t].Connecting? && c.shared.told[t] == No
    ensures Step(c, ConnectSucceeds(t), c1) && Step(c1, Install(t), c2)
    ensures var k := |c.shared.open|;
            && c2.shared.connected && c2.shared.session == Some(k) && c2.shared.open == c.shared.open + [true]
            && |c2.pcs| == |c.pcs| && c2.pcs[t] == Serving(k)
  {
    var k := |c.shared.open|;
    c1 := Move(c, t, Connected(k)).(shared := c.shared.(open := c.shared.open + [true]));
    c2 := Move(c1.(shared := AfterSetSession(c1.shared, t + 1, Some(k))), t, Serving(k));
  }

  // ----- what stop tells the task, and the hook that may follow

  /** Past every point at which the hook could still be called, or before a session was installed. */
  predicate PastHook(pc: Pc) {
    !pc.Serving? && !pc.Clearing? && !pc.Notifying? && !(pc.Hooking? && pc.how != Quiet)
  }

  lemma {:induction false} PastStays(c: Client, e: Event, c': Client, t: nat)
    requires ClientInv(c) && Step(c, e, c') && t < |c.pcs| && c.shared.told[t] != No && PastHook(c.pcs[t])
    ensures t < |c'.pcs| && |c'.shared.told| == |c'.pcs| && c'.shared.told[t] != No && PastHook(c'.pcs[t])
    ensures e != RunHook(t)
  {
    hide Owned, Closed, Serves;
    ToldKept(c, e, c', t);
  }

  lemma {:induction false} PastNeverHooks(c: Client, run: seq<Client>, events: seq<Event>, t: nat, k: nat)
    requires ClientInv(c) && Continues(c, run, events) && k <= |events|
    requires t < |c.pcs| && c.shared.told[t] != No && PastHook(c.pcs[t])
    ensures ClientInv(run[k]) && t < |run[k].pcs| && run[k].shared.told[t] != No && PastHook(run[k].pcs[t])
    ensures k < |events| ==> events[k] != RunHook(t)
  {
    hide Step, PastHook;
    SameLengths(run[0]);
    if k > 0 {
      PastNeverHooks(c, run, events, t, k - 1);
      assert StepAt(run, events, k - 1);
      StepKeeps(run[k - 1], events[k - 1], run[k]);
      SameLengths(run[k]);
      PastStays(run[k - 1], events[k - 1], run[k], t);
    }
    if k < |events| {
      assert StepAt(run, events, k);
      PastStays(run[k], events[k], run[k + 1], t);
    }
  }

  lemma {:induction false} HookComes(c: Client, t: nat) returns (run: seq<Client>, events: seq<Event>)
    requires ClientInv(c) && t < |c.pcs| && c.shared.told[t] == Notify && !PastHook(c.pcs[t])
    ensures HookFollows(c, run, events, t)
    decreases StepsLeft(c.pcs[t])
  {
    hide Step, ClientInv;
    if c.pcs[t].Hooking? {
      SameLengths(c);
      var c' := HookRuns(c, t);
      assert StepAt([c, c'], [RunHook(t)], 0);
      return [c, c'], [RunHook(t)];
    }
    var e, c' := NearsHook(c, t);
    StepKeeps(c, e, c');
    SameLengths(c');
    var rest, tail := HookComes(c', t);
    run, events := [c] + rest, [e] + tail;
    forall k | 0 <= k < |events| ensures StepAt(run, events, k) {
      if k > 0 {
        assert StepAt(rest, tail, k - 1);
      }
    }
    assert RunHook(t) in tail;
  }

  lemma {:induction false} NearsHook(c: Client, t: nat) returns (e: Event, c': Client)
    requires ClientInv(c) && t < |c.pcs| && c.shared.told[t] == Notify
    requires c.pcs[t].Serving? || c.pcs[t].Clearing? || c.pcs[t].Notifying?
    ensures Step(c, e, c') && |c'.pcs| == |c.pcs| && c'.shared.told == c.shared.told && !PastHook(c'.pcs[t])
    ensures StepsLeft(c'.pcs[t]) < StepsLeft(c.pcs[t])
  {
    match c.pcs[t] {
      case Serving(k) => e, c' := Leave(t), Move(ClosedIn(c, Some(k)), t, Clearing(k));
      case Clearing(k) =>
        e, c' := ClearSession(t), Move(c.(shared := AfterSetSession(c.shared, t + 1, None)), t, Notifying(k));
      case Notifying(k) => e, c' := ReadHow(t), Move(c, t, Hooking(k, Notify));
    }
  }

  lemma {:induction false} StopTells(c: Client, c': Client)
    requires ClientInv(c) && Step(c, Stop, c') && c.shared.running
    ensures var n := c.shared.generation;
            && n > 0 && n == |c.pcs| && c'.pcs == c.pcs && c'.shared.told == c.shared.told[n - 1 := Notify]
            && (c.shared.session.Some? ==>
                  c.shared.session.value < |c'.shared.open| && !c'.shared.open[c.shared.session.value])
  {
  }

  /** `stop` tells the current task to notify, closes its session, and changes no other task. The disconnect
      hook of that session can still run afterwards if and only if its task has installed it and has not
      called the hook yet. */
  lemma {:induction false} StoppedHookExactly(run: seq<Client>, events: seq<Event>, j: nat)
    requires Run(run, events) && j < |events| && events[j].Stop? && run[j].shared.running
    ensures var c, c', t := run[j], run[j + 1], run[j].shared.generation - 1;
            && 0 <= t < |c.pcs| && t < |c.shared.told|
            && c'.pcs == c.pcs && c'.shared.told == c.shared.told[t := Notify]
            && (c.shared.session.Some? ==>
                  c.shared.session.value < |c'.shared.open| && !c'.shared.open[c.shared.session.value])
            && (HookCanFollow(c', t) <==> c.pcs[t].Serving? || c.pcs[t].Clearing? || c.pcs[t].Notifying?
                                          || (c.pcs[t].Hooking? && c.pcs[t].how != Quiet))
  {
    hide ClientInv, Continues;
    RunKeeps(run, events, j);
    RunKeeps(run, events, j + 1);
    assert StepAt(run, events, j);
    StopTells(run[j], run[j + 1]);
    var c, t: nat := run[j + 1], run[j].shared.generation - 1;
    SameLengths(run[j]);
    if PastHook(c.pcs[t]) {
      if more, steps :| HookFollows(c, more, steps, t) {
        var k: nat :| k < |steps| && steps[k] == RunHook(t);
        PastNeverHooks(c, more, steps, t, k);
      }
    } else {
      var more, steps := HookComes(c, t);
    }
  }
}
