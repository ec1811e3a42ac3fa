/** The heartbeat of a session: two timer slots and a flag behind one lock, shared by the read loop, by
    every `send_heartbeat` and `expect_heartbeat` under way, and by the end of closing. */
module Heartbeats {
  import opened Texts

  /** The watchdog of `expect_heartbeat`, that of `send_heartbeat`, and the timer of the next heartbeat. */
  datatype TimerKind = Initial | Negotiated | Echo

  /** A spawned timer task. It is live until it fires or is aborted. */
  datatype Timer = Timer(kind: TimerKind, wait: nat, live: bool)

  datatype Slots = Slots(
    open: bool,
    awaiting: bool,
    watchdog: Option<nat>,
    echo: Option<nat>,
    received: nat,
    ignored: nat,
    timers: seq<Timer>)

  function Aborted(timers: seq<Timer>, slot: Option<nat>): (r: seq<Timer>)
    ensures |r| == |timers|
  {
    if slot.Some? && slot.value < |timers| then timers[slot.value := timers[slot.value].(live := false)] else timers
  }

  /** `interval.saturating_mul(2)`. */
  function Doubled(interval: nat): nat {
    if 2 * interval > U64_MAX then U64_MAX else 2 * interval
  }

  function NewSlots(): Slots {
    Slots(true, true, None, None, 0, 0, [])
  }

  function WithWatchdog(s: Slots, kind: TimerKind, wait: nat): Slots {
    s.(timers := Aborted(s.timers, s.watchdog) + [Timer(kind, wait, true)], watchdog := Some(|s.timers|))
  }

  function AfterExpect(s: Slots, timeout: nat): Slots {
    if !s.open || s.received != 0 then s else WithWatchdog(s, Initial, timeout)
  }

  function AfterHandle(s: Slots, interval: nat): Slots {
    if interval == 0 || !s.awaiting then s.(ignored := s.ignored + 1)
    else
      s.(awaiting := false, received := s.received + 1, watchdog := None, echo := Some(|s.timers|),
         timers := Aborted(Aborted(s.timers, s.watchdog), s.echo) + [Timer(Echo, interval, true)])
  }

  function AfterSend(s: Slots, interval: nat, queued: bool): Slots {
    if !s.open then s
    else if !queued then s.(awaiting := true, open := false)
    else WithWatchdog(s.(awaiting := true), Negotiated, Doubled(interval))
  }

  function AfterClear(s: Slots): Slots {
    s.(watchdog := None, echo := None, timers := Aborted(Aborted(s.timers, s.watchdog), s.echo))
  }

  /** The critical sections as methods of the shared state. */
  class HeartbeatState {
    var open: bool
    var awaiting: bool
    var watchdog: Option<nat>
    var echo: Option<nat>
    var received: nat
    var ignored: nat
    var timers: seq<Timer>

    function View(): Slots
      reads this
    {
      Slots(open, awaiting, watchdog, echo, received, ignored, timers)
    }

    constructor ()
      ensures View() == NewSlots()
    {
      open, awaiting, watchdog, echo := true, true, None, None;
      received, ignored, timers := 0, 0, [];
    }

    method Spawn(kind: TimerKind, wait: nat) returns (handle: nat)
      modifies this`timers
      ensures timers == old(timers) + [Timer(kind, wait, true)] && handle == old(|timers|)
    {
      handle := |timers|;
      timers := timers + [Timer(kind, wait, true)];
    }

    method Abort(slot: Option<nat>)
      modifies this`timers
      ensures timers == Aborted(old(timers), slot)
    {
      if slot.Some? && slot.value < |timers| {
        timers := timers[slot.value := timers[slot.value].(live := false)];
      }
    }

    /** `expect_heartbeat`: checks and installs under one lock. */
    method Expect(timeout: nat)
      requires watchdog.Some? ==> watchdog.value < |timers|
      modifies this
      ensures View() == AfterExpect(old(View()), timeout)
    {
      if !open || received != 0 {
        return;
      }
      var handle := Spawn(Initial, timeout);
      var previous := watchdog;
      watchdog := Some(handle);
      Abort(previous);
    }

    /** `handle_heartbeat`. */
    method Handle(interval: nat)
      requires watchdog.Some? ==> watchdog.value < |timers|
      requires echo.Some? ==> echo.value < |timers|
      modifies this
      ensures View() == AfterHandle(old(View()), interval)
    {
      if interval == 0 {
        ignored := ignored + 1;
        return;
      }
      if !awaiting {
        ignored := ignored + 1;
        return;
      }
      awaiting := false;
      received := received + 1;
      Abort(watchdog);
      watchdog := None;
      var handle := Spawn(Echo, interval);
      var previous := echo;
      echo := Some(handle);
      Abort(previous);
    }

    /** The first section of `send_heartbeat`. */
    method SetAwaiting()
      modifies this`awaiting
      ensures View() == old(View()).(awaiting := true)
    {
      awaiting := true;
    }

    /** Its last section, once the frame is queued. */
    method Arm(interval: nat)
      requires watchdog.Some? ==> watchdog.value < |timers|
      modifies this
      ensures View() == WithWatchdog(old(View()), Negotiated, Doubled(interval))
    {
      var handle := Spawn(Negotiated, Doubled(interval));
      var previous := watchdog;
      watchdog := Some(handle);
      Abort(previous);
    }

    method Close()
      modifies this`open
      ensures View() == old(View()).(open := false)
    {
      open := false;
    }

    /** `send_heartbeat` undisturbed: `queued` says whether the frame could be queued. A closed session sends
        nothing, and one that cannot queue its heartbeat closes. */
    method SendHeartbeat(interval: nat, queued: bool)
      requires watchdog.Some? ==> watchdog.value < |timers|
      modifies this
      ensures View() == AfterSend(old(View()), interval, queued)
    {
      if !open {
        return;
      }
      SetAwaiting();
      if !queued {
        Close();
        return;
      }
      Arm(interval);
    }

    /** The lock section of `finish_close`. */
    method Clear()
      modifies this
      ensures View() == AfterClear(old(View()))
    {
      Abort(watchdog);
      watchdog := None;
      Abort(echo);
      echo := None;
    }
  }

  // ----- every interleaving of the sections

  /** A `send_heartbeat` under way, by its next section. */
  datatype Section = ToAwait | ToWrite | ToArm | Over

  datatype Sender = Sender(interval: nat, next: Section)

  /** The driver reads, then `finish_close` stores `open = false` and clears the slots. */
  datatype Phase = Reading | Stored | Cleared

  datatype Heart = Heart(slots: Slots, phase: Phase, senders: seq<Sender>)

  datatype HeartEvent =
    | Initiate(interval: nat)
    | Await(i: nat)
    | Write(i: nat, queued: bool)
    | Arm(i: nat)
    | Expect(timeout: nat)
    | Receive(interval: nat)
    | Close
    | StoreClosed
    | Clear
    | Fire(t: nat)

  predicate SenderAt(h: Heart, i: nat, next: Section) {
    i < |h.senders| && h.senders[i].next == next
  }

  function Moved(h: Heart, i: nat, next: Section): Heart
    requires i < |h.senders|
  {
    h.(senders := h.senders[i := h.senders[i].(next := next)])
  }

  /** `send_heartbeat` begins with a check of `open`. */
  function Started(h: Heart, interval: nat): Heart {
    if h.slots.open then h.(senders := h.senders + [Sender(interval, ToAwait)]) else h
  }

  function Shut(h: Heart): Heart {
    h.(slots := h.slots.(open := false))
  }

  function Fired(h: Heart, t: nat): Heart
    requires t < |h.slots.timers|
  {
    h.(slots := h.slots.(timers := Aborted(h.slots.timers, Some(t))))
  }

  predicate HeartStep(h: Heart, e: HeartEvent, h': Heart) {
    match e
    case Initiate(interval) => h' == Started(h, interval)
    case Await(i) => SenderAt(h, i, ToAwait) && h' == Moved(h, i, ToWrite).(slots := h.slots.(awaiting := true))
    case Write(i, queued) =>
      SenderAt(h, i, ToWrite) && h' == if queued then Moved(h, i, ToArm) else Shut(Moved(h, i, Over))
    case Arm(i) =>
      && SenderAt(h, i, ToArm)
      && h' == Moved(h, i, Over).(slots := WithWatchdog(h.slots, Negotiated, Doubled(h.senders[i].interval)))
    case Expect(timeout) => h' == h.(slots := AfterExpect(h.slots, timeout))
    case Receive(interval) => h.phase.Reading? && h' == h.(slots := AfterHandle(h.slots, interval))
    case Close => h' == Shut(h)
    case StoreClosed => h.phase.Reading? && h' == Shut(h).(phase := Stored)
    case Clear => h.phase.Stored? && h' == h.(slots := AfterClear(h.slots), phase := Cleared)
    case Fire(t) =>
      && t < |h.slots.timers| && h.slots.timers[t].live
      && h' == (if h.slots.timers[t].kind.Echo? then Started(Fired(h, t), h.slots.timers[t].wait)
                else Shut(Fired(h, t)))
  }

  ghost predicate HeartRun(run: seq<Heart>, events: seq<HeartEvent>) {
    && |run| == |events| + 1
    && run[0] == Heart(NewSlots(), Reading, [])
    && forall k :: 0 <= k < |events| ==> HeartStep(run[k], events[k], run[k + 1])
  }

  /** `SendHeartbeat` is what the sections of one send do when nothing comes between them. */
  lemma {:induction false} SendUndisturbed(h: Heart, interval: nat, queued: bool)
      returns (hs: seq<Heart>, events: seq<HeartEvent>)
    ensures |hs| == |events| + 1 && hs[0] == h && hs[|events|].slots == AfterSend(h.slots, interval, queued)
    ensures forall k :: 0 <= k < |events| ==> HeartStep(hs[k], events[k], hs[k + 1])
    ensures |hs[|events|].senders| == |h.senders| + if h.slots.open then 1 else 0
  {
    hide WithWatchdog;
    var i := |h.senders|;
    var h1 := Started(h, interval);
    if !h.slots.open {
      return [h, h1], [Initiate(interval)];
    }
    var h2 := Moved(h1, i, ToWrite).(slots := h1.slots.(awaiting := true));
    if !queued {
      return [h, h1, h2, Shut(Moved(h2, i, Over))], [Initiate(interval), Await(i), Write(i, false)];
    }
    var h3 := Moved(h2, i, ToArm);
    var h4 := Moved(h3, i, Over).(slots := WithWatchdog(h3.slots, Negotiated, Doubled(interval)));
    return [h, h1, h2, h3, h4], [Initiate(interval), Await(i), Write(i, true), Arm(i)];
  }

  predicate InSlot(s: Slots, t: nat)
    requires t < |s.timers|
  {
    if s.timers[t].kind.Echo? then s.echo == Some(t) else s.watchdog == Some(t)
  }

  /** Every live timer is in its slot, and no initial one lives on after a heartbeat was accepted. */
  ghost predicate SlotsInv(s: Slots) {
    && (forall t :: 0 <= t < |s.timers| && s.timers[t].live ==> InSlot(s, t))
    && (s.watchdog.Some? ==> s.watchdog.value < |s.timers| && !s.timers[s.watchdog.value].kind.Echo?)
    && (s.echo.Some? ==> s.echo.value < |s.timers| && s.timers[s.echo.value].kind.Echo?)
    && (s.received != 0 ==> forall t :: 0 <= t < |s.timers| && s.timers[t].live ==> !s.timers[t].kind.Initial?)
  }

  ghost predicate OnlyNegotiated(s: Slots) {
    forall t :: 0 <= t < |s.timers| && s.timers[t].live ==> s.timers[t].kind.Negotiated?
  }

  ghost predicate HeartInv(h: Heart) {
    && SlotsInv(h.slots)
    && (!h.phase.Reading? ==> !h.slots.open)
    && (h.phase.Cleared? ==> OnlyNegotiated(h.slots))
  }

  lemma {:induction false} WatchdogKeeps(s: Slots, kind: TimerKind, wait: nat)
    requires SlotsInv(s) && (kind.Negotiated? || (kind.Initial? && s.received == 0))
    ensures SlotsInv(WithWatchdog(s, kind, wait))
    ensures OnlyNegotiated(s) && kind.Negotiated? ==> OnlyNegotiated(WithWatchdog(s, kind, wait))
  {
  }

  lemma {:induction false} HandleKeeps(s: Slots, interval: nat)
    requires SlotsInv(s)
    ensures SlotsInv(AfterHandle(s, interval))
  {
  }

  lemma {:induction false} ClearKeeps(s: Slots)
    requires SlotsInv(s)
    ensures SlotsInv(AfterClear(s)) && OnlyNegotiated(AfterClear(s))
  {
    var timers := AfterClear(s).timers;
    forall t | 0 <= t < |timers| ensures !timers[t].live {
      assert s.timers[t].live ==> InSlot(s, t);
    }
  }

  lemma {:induction false} FireKeeps(s: Slots, t: nat)
    requires SlotsInv(s) && t < |s.timers|
    ensures var s' := s.(timers := Aborted(s.timers, Some(t)));
            SlotsInv(s') && (OnlyNegotiated(s) ==> OnlyNegotiated(s'))
  {
  }

  lemma {:induction false} HeartStepKeeps(h: Heart, e: HeartEvent, h': Heart)
    requires HeartInv(h) && HeartStep(h, e, h')
    ensures HeartInv(h')
  {
    hide WithWatchdog, AfterHandle, AfterClear, Aborted;
    var s := h.slots;
    match e {
      case Arm(i) => WatchdogKeeps(s, Negotiated, Doubled(h.senders[i].interval));
        SameOpen(s, Negotiated, Doubled(h.senders[i].interval));
      case Expect(timeout) =>
        if s.open && s.received == 0 {
          WatchdogKeeps(s, Initial, timeout);
        }
      case Receive(interval) => HandleKeeps(s, interval);
      case Clear => ClearKeeps(s);
        SameOpenCleared(s);
      case Fire(t) => FireKeeps(s, t);
      case Initiate(_) =>
      case Await(_) =>
      case Write(_, _) =>
      case Close =>
      case StoreClosed =>
    }
  }

  lemma {:induction false} SameOpen(s: Slots, kind: TimerKind, wait: nat)
    ensures WithWatchdog(s, kind, wait).open == s.open
  {
  }

  lemma {:induction false} SameOpenCleared(s: Slots)
    ensures AfterClear(s).open == s.open
  {
  }

  lemma {:induction false} NewSlotsKeep()
    ensures HeartInv(Heart(NewSlots(), Reading, []))
  {
  }

  lemma {:induction false} HeartRunKeeps(run: seq<Heart>, events: seq<HeartEvent>, k: nat)
    requires HeartRun(run, events) && k < |run|
    ensures HeartInv(run[k])
  {
    hide HeartInv, HeartStep;
    if k == 0 {
      NewSlotsKeep();
    } else {
      HeartRunKeeps(run, events, k - 1);
      HeartStepKeeps(run[k - 1], events[k - 1], run[k]);
    }
  }

  /** In every order of expecting, receiving and closing: no initial watchdog is armed once a heartbeat
      was accepted or the slots were cleared, and never are two watchdogs, or two echo timers, armed. */
  lemma {:induction false} StartupWatchdog(run: seq<Heart>, events: seq<HeartEvent>, k: nat, t: nat, u: nat)
    requires HeartRun(run, events) && k < |run|
    requires var timers := run[k].slots.timers; t < |timers| && timers[t].live && u < |timers| && timers[u].live
    ensures run[k].slots.timers[t].kind.Initial? ==> run[k].slots.received == 0 && !run[k].phase.Cleared?
    ensures (run[k].slots.timers[t].kind.Echo? <==> run[k].slots.timers[u].kind.Echo?) ==> t == u
  {
    HeartRunKeeps(run, events, k);
    assert InSlot(run[k].slots, t) && InSlot(run[k].slots, u);
  }

  /** Once closing has cleared the slots, only the last section of a `send_heartbeat` that was under way
      still arms a timer. */
  lemma {:induction false} LateTimers(run: seq<Heart>, events: seq<HeartEvent>, k: nat)
    requires HeartRun(run, events) && k < |events| && run[k].phase.Cleared?
    ensures |run[k + 1].slots.timers| > |run[k].slots.timers| <==> events[k].Arm?
    ensures run[k + 1].phase.Cleared? && !run[k + 1].slots.open
  {
    HeartRunKeeps(run, events, k);
    assert HeartStep(run[k], events[k], run[k + 1]);
  }

  /** And such a timer does exist in some runs: the slots need not stay empty. */
  lemma {:induction false} LateTimerHappens(interval: nat) returns (run: seq<Heart>, events: seq<HeartEvent>)
    ensures HeartRun(run, events)
    ensures var last := run[|events|];
            && last.phase.Cleared? && last.slots.watchdog == Some(0)
            && |last.slots.timers| == 1 && last.slots.timers[0].live
  {
    var h0 := Heart(NewSlots(), Reading, []);
    var h1 := Started(h0, interval);
    var h2 := Moved(h1, 0, ToWrite);
    var h3 := Moved(h2, 0, ToArm);
    var h4 := Shut(h3).(phase := Stored);
    var h5 := h4.(slots := AfterClear(h4.slots), phase := Cleared);
    var h6 := Moved(h5, 0, Over).(slots := WithWatchdog(h5.slots, Negotiated, Doubled(interval)));
    run := [h0, h1, h2, h3, h4, h5, h6];
    events := [Initiate(interval), Await(0), Write(0, true), StoreClosed, Clear, Arm(0)];
    assert h2.slots == h1.slots.(awaiting := true);
  }

  /** After closing, a timer that fires changes nothing but itself, and starts nothing. */
  lemma {:induction false} StaleTimerIsNoOp(h: Heart, t: nat, h': Heart)
    requires HeartStep(h, Fire(t), h') && !h.slots.open
    ensures h' == h.(slots := h.slots.(timers := h'.slots.timers)) && |h'.slots.timers| == |h.slots.timers|
    ensures !h'.slots.timers[t].live
    ensures forall u :: 0 <= u < |h.slots.timers| && u != t ==> h'.slots.timers[u] == h.slots.timers[u]
  {
  }

  /** It is harmless: once a session has been closed no `send_heartbeat` begins any more, whichever timers
      fire, and it stays closed. */
  lemma {:induction false} ClosedIsQuiet(run: seq<Heart>, events: seq<HeartEvent>, j: nat, k: nat)
    requires HeartRun(run, events) && j <= k < |run| && !run[j].slots.open
    ensures !run[k].slots.open && |run[k].senders| == |run[j].senders|
  {
    if j < k {
      ClosedIsQuiet(run, events, j, k - 1);
      assert HeartStep(run[k - 1], events[k - 1], run[k]);
    }
  }

  /** In every run a heartbeat is accepted exactly when one is awaited and its interval is not zero; the echo
      timer it starts is then the only live timer. Otherwise nothing but the count of ignored frames changes. */
  lemma {:induction false} AcceptedWhenAwaited(run: seq<Heart>, events: seq<HeartEvent>, k: nat, interval: nat)
    requires HeartRun(run, events) && k < |events| && events[k] == Receive(interval)
    ensures var s, s' := run[k].slots, run[k + 1].slots;
            if interval > 0 && s.awaiting then
              && s'.received == s.received + 1 && !s'.awaiting && s'.echo == Some(|s.timers|)
              && |s'.timers| == |s.timers| + 1 && s'.timers[|s.timers|] == Timer(Echo, interval, true)
              && forall t :: 0 <= t < |s'.timers| ==> (s'.timers[t].live <==> s'.echo == Some(t))
            else s' == s.(ignored := s.ignored + 1)
    ensures run[k + 1] == run[k].(slots := run[k + 1].slots)
  {
    HeartRunKeeps(run, events, k + 1);
    assert HeartStep(run[k], events[k], run[k + 1]);
    var s' := run[k + 1].slots;
    if interval > 0 && run[k].slots.awaiting {
      forall t | 0 <= t < |s'.timers| && s'.timers[t].live ensures s'.echo == Some(t) {
        assert InSlot(s', t);
      }
    }
  }

  // ----- how long each timer waits

  /** In every run, the last section of a send of interval `I` leaves exactly one live watchdog: it waits for
      twice `I`, or for the largest time there is if that is more. */
  lemma {:induction false} WatchdogWaits(run: seq<Heart>, events: seq<HeartEvent>, k: nat, i: nat)
    requires HeartRun(run, events) && k < |events| && events[k] == Arm(i)
    ensures i < |run[k].senders|
    ensures var s, s', wait := run[k].slots, run[k + 1].slots, 2 * run[k].senders[i].interval;
            && |s'.timers| == |s.timers| + 1 && s'.watchdog == Some(|s.timers|)
            && s'.timers[|s.timers|] == Timer(Negotiated, if wait <= U64_MAX then wait else U64_MAX, true)
            && (forall t :: 0 <= t < |s.timers| && s'.timers[t].live ==> s'.timers[t].kind.Echo?)
            && s'.echo == s.echo && s'.awaiting == s.awaiting && s'.open == s.open
  {
    HeartRunKeeps(run, events, k);
    HeartRunKeeps(run, events, k + 1);
    assert HeartStep(run[k], events[k], run[k + 1]);
    var s' := run[k + 1].slots;
    forall t | 0 <= t < |run[k].slots.timers| && s'.timers[t].live ensures s'.timers[t].kind.Echo? {
      assert InSlot(s', t);
    }
  }

  /** In every run, expecting a first heartbeat in an open session that has received none leaves exactly one
      live watchdog, which waits for the given time. In any other session it does nothing. */
  lemma {:induction false} ExpectedWithin(run: seq<Heart>, events: seq<HeartEvent>, k: nat, timeout: nat)
    requires HeartRun(run, events) && k < |events| && events[k] == Expect(timeout)
    ensures var s, s' := run[k].slots, run[k + 1].slots;
            if s.open && s.received == 0 then
              && |s'.timers| == |s.timers| + 1 && s'.watchdog == Some(|s.timers|)
              && s'.timers[|s.timers|] == Timer(Initial, timeout, true)
              && (forall t :: 0 <= t < |s.timers| && s'.timers[t].live ==> s'.timers[t].kind.Echo?)
            else s' == s
  {
    HeartRunKeeps(run, events, k);
    HeartRunKeeps(run, events, k + 1);
    assert HeartStep(run[k], events[k], run[k + 1]);
    var s' := run[k + 1].slots;
    if run[k].slots.open && run[k].slots.received == 0 {
      forall t | 0 <= t < |run[k].slots.timers| && s'.timers[t].live ensures s'.timers[t].kind.Echo? {
        assert InSlot(s', t);
      }
    }
  }

  /** A live timer that runs out: an echo begins to send the heartbeat of its interval if the session is open,
      and a watchdog closes the session. */
  lemma {:induction false} TimerRunsOut(run: seq<Heart>, events: seq<HeartEvent>, k: nat, t: nat)
    requires HeartRun(run, events) && k < |events| && events[k] == Fire(t)
    ensures t < |run[k].slots.timers|
    ensures var timer, h, h' := run[k].slots.timers[t], run[k], run[k + 1];
            && h'.slots.open == (h.slots.open && timer.kind.Echo?)
            && h'.senders == (if timer.kind.Echo? && h.slots.open then h.senders + [Sender(timer.wait, ToAwait)]
                              else h.senders)
            && h'.slots.timers == h.slots.timers[t := timer.(live := false)]
  {
    assert HeartStep(run[k], events[k], run[k + 1]);
  }

  /** No interval changes on the way: a send under way keeps the interval with which it began, and a timer its
      kind and the time it waits. */
  lemma {:induction false} IntervalsKept(run: seq<Heart>, events: seq<HeartEvent>, j: nat, k: nat)
    requires HeartRun(run, events) && j <= k < |run|
    ensures |run[j].senders| <= |run[k].senders| && |run[j].slots.timers| <= |run[k].slots.timers|
    ensures forall i :: 0 <= i < |run[j].senders| ==> run[k].senders[i].interval == run[j].senders[i].interval
    ensures forall t :: 0 <= t < |run[j].slots.timers| ==>
              && run[k].slots.timers[t].kind == run[j].slots.timers[t].kind
              && run[k].slots.timers[t].wait == run[j].slots.timers[t].wait
  {
    if j < k {
      IntervalsKept(run, events, j, k - 1);
      assert HeartStep(run[k - 1], events[k - 1], run[k]);
    }
  }

  // ----- what the events have made of the state, exactly

  lemma {:induction false} PastStep(events: seq<HeartEvent>, k: nat, i: nat)
    requires k < |events|
    ensures var past, past', e := events[..k], events[..k + 1], events[k];
            && (Await(i) in past' <==> Await(i) in past || e == Await(i))
            && (Write(i, true) in past' <==> Write(i, true) in past || e == Write(i, true))
            && (Write(i, false) in past' <==> Write(i, false) in past || e == Write(i, false))
            && (Arm(i) in past' <==> Arm(i) in past || e == Arm(i))
  {
    assert events[..k + 1] == events[..k] + [events[k]];
  }

  predicate ConcernsNone(events: seq<HeartEvent>, i: nat) {
    Await(i) !in events && Write(i, true) !in events && Write(i, false) !in events && Arm(i) !in events
  }

  lemma {:induction false} NotBegun(run: seq<Heart>, events: seq<HeartEvent>, k: nat, i: nat)
    requires HeartRun(run, events) && k < |run| && |run[k].senders| <= i
    ensures ConcernsNone(events[..k], i)
  {
    hide WithWatchdog, AfterExpect, AfterHandle, AfterClear;
    if k > 0 {
      IntervalsKept(run, events, k - 1, k);
      NotBegun(run, events, k - 1, i);
      assert HeartStep(run[k - 1], events[k - 1], run[k]);
      assert events[..k] == events[..k - 1] + [events[k - 1]];
    }
  }

  lemma {:induction false} SectionStep(h: Heart, e: HeartEvent, h': Heart, i: nat)
    requires HeartStep(h, e, h') && i < |h'.senders|
    ensures i < |h.senders| ==>
              h'.senders[i].next == match e
                                    case Await(j) => if j == i then ToWrite else h.senders[i].next
                                    case Write(j, queued) =>
                                      if j == i then if queued then ToArm else Over else h.senders[i].next
                                    case Arm(j) => if j == i then Over else h.senders[i].next
                                    case _ => h.senders[i].next
    ensures i < |h.senders| && e == Await(i) ==> h.senders[i].next.ToAwait?
    ensures i < |h.senders| && (e == Write(i, true) || e == Write(i, false)) ==> h.senders[i].next.ToWrite?
    ensures i < |h.senders| && e == Arm(i) ==> h.senders[i].next.ToArm?
    ensures i >= |h.senders| ==> h'.senders[i].next.ToAwait? && ConcernsNone([e], i)
    ensures e == Write(i, false) ==> !h'.slots.open
  {
    hide WithWatchdog, AfterExpect, AfterHandle, AfterClear;
  }

  /** `next` is the section of send `i` that comes after the events of `past`. */
  predicate FollowsFrom(next: Section, past: seq<HeartEvent>, i: nat) {
    && (next.ToAwait? <==> Await(i) !in past)
    && (next.ToWrite? <==> Await(i) in past && Write(i, true) !in past && Write(i, false) !in past)
    && (next.ToArm? <==> Write(i, true) in past && Arm(i) !in past)
    && (next.Over? <==> Arm(i) in past || Write(i, false) in past)
    && !(Arm(i) in past && Write(i, false) in past)
  }

  /** How far a send has come is exactly what has happened to it: it awaits an answer before it writes, arms the
      watchdog if and only if its frame was queued, and otherwise has closed the session. */
  lemma {:induction false} SectionsExactly(run: seq<Heart>, events: seq<HeartEvent>, k: nat, i: nat)
    requires HeartRun(run, events) && k < |run| && i < |run[k].senders|
    ensures FollowsFrom(run[k].senders[i].next, events[..k], i)
    ensures Write(i, false) in events[..k] ==> !run[k].slots.open
  {
    hide HeartStep, ConcernsNone, FollowsFrom;
    if k == 0 {
      NoSenders(run, events);
      return;
    }
    var h, e, h' := run[k - 1], events[k - 1], run[k];
    assert HeartStep(h, e, h');
    SectionStep(h, e, h', i);
    PastStep(events, k - 1, i);
    if i < |h.senders| {
      SectionsExactly(run, events, k - 1, i);
      SectionFollows(h, events, k - 1, h', i);
      if Write(i, false) in events[..k - 1] {
        ClosedIsQuiet(run, events, k - 1, k);
      }
    } else {
      NotBegun(run, events, k - 1, i);
      BeginningFollows(events, k - 1, i);
    }
  }

  lemma {:induction false} SectionFollows(h: Heart, events: seq<HeartEvent>, k: nat, h': Heart, i: nat)
    requires k < |events| && HeartStep(h, events[k], h') && i < |h.senders| && i < |h'.senders|
    requires FollowsFrom(h.senders[i].next, events[..k], i)
    ensures FollowsFrom(h'.senders[i].next, events[..k + 1], i)
  {
    hide HeartStep;
    SectionStep(h, events[k], h', i);
    PastStep(events, k, i);
  }

  lemma {:induction false} BeginningFollows(events: seq<HeartEvent>, k: nat, i: nat)
    requires k < |events| && ConcernsNone(events[..k], i) && ConcernsNone([events[k]], i)
    ensures FollowsFrom(ToAwait, events[..k + 1], i) && Write(i, false) !in events[..k + 1]
  {
    assert events[k] in [events[k]];
    PastStep(events, k, i);
  }

  lemma {:induction false} NoSenders(run: seq<Heart>, events: seq<HeartEvent>)
    requires HeartRun(run, events)
    ensures run[0].senders == [] && run[0].slots.awaiting && run[0].slots.open
  {
  }

  /** Event `m` is a heartbeat that was accepted. */
  predicate AcceptedAt(run: seq<Heart>, m: nat) {
    m + 1 < |run| && run[m + 1].slots.received > run[m].slots.received
  }

  predicate AwaitedIn(events: seq<HeartEvent>, m: nat, k: nat) {
    exists n :: m < n < k <= |events| && events[n].Await?
  }

  lemma {:induction false} AwaitStep(h: Heart, e: HeartEvent, h': Heart)
    requires HeartStep(h, e, h')
    ensures h'.slots.awaiting
            == (if e.Await? then true else h.slots.awaiting && h'.slots.received == h.slots.received)
    ensures h'.slots.received > h.slots.received ==> e.Receive?
    ensures h'.slots.received >= h.slots.received
  {
  }

  /** In every run a side awaits a heartbeat if and only if some send has asked for one since it last accepted
      one; at the beginning both sides do. */
  lemma {:induction false} AwaitsExactly(run: seq<Heart>, events: seq<HeartEvent>, k: nat)
    requires HeartRun(run, events) && k < |run|
    ensures run[k].slots.awaiting <==> forall m :: 0 <= m < k && AcceptedAt(run, m) ==> AwaitedIn(events, m, k)
  {
    hide HeartStep;
    if k == 0 {
      NoSenders(run, events);
      return;
    }
    AwaitsExactly(run, events, k - 1);
    assert HeartStep(run[k - 1], events[k - 1], run[k]);
    AwaitStep(run[k - 1], events[k - 1], run[k]);
    forall m | 0 <= m < k
      ensures AwaitedIn(events, m, k) <==> AwaitedIn(events, m, k - 1) || (m < k - 1 && events[k - 1].Await?)
    {
      if m < k - 1 && events[k - 1].Await? {
        assert AwaitedIn(events, m, k);
      }
    }
    assert !AwaitedIn(events, k - 1, k);
    if AcceptedAt(run, k - 1) {
      assert !run[k].slots.awaiting;
    } else if events[k - 1].Await? {
      assert forall m :: 0 <= m < k && AcceptedAt(run, m) ==> AwaitedIn(events, m, k);
    }
  }

  /** This event closes the session. */
  predicate Closes(run: seq<Heart>, events: seq<HeartEvent>, n: nat)
    requires n < |events| && n < |run|
  {
    match events[n]
    case Write(_, queued) => !queued
    case Close => true
    case StoreClosed => true
    case Fire(t) => t < |run[n].slots.timers| && !run[n].slots.timers[t].kind.Echo?
    case _ => false
  }

  lemma {:induction false} OpenStep(run: seq<Heart>, events: seq<HeartEvent>, k: nat)
    requires HeartRun(run, events) && k < |events|
    ensures run[k + 1].slots.open == (run[k].slots.open && !Closes(run, events, k))
  {
    assert HeartStep(run[k], events[k], run[k + 1]);
  }

  /** A session is closed if and only if someone closed it, a heartbeat could not be queued, a watchdog ran out,
      or its end was reached: no heartbeat received and no echo closes it. */
  lemma {:induction false} OpenExactly(run: seq<Heart>, events: seq<HeartEvent>, k: nat)
    requires HeartRun(run, events) && k < |run|
    ensures run[k].slots.open <==> forall n :: 0 <= n < k ==> !Closes(run, events, n)
  {
    hide HeartStep, Closes;
    if k == 0 {
      NoSenders(run, events);
    } else {
      OpenExactly(run, events, k - 1);
      OpenStep(run, events, k - 1);
    }
  }

  // ----- every heartbeat accepted was asked for, and is echoed once

  function EchoTimers(timers: seq<Timer>): nat {
    if timers == [] then 0
    else EchoTimers(timers[..|timers| - 1]) + if timers[|timers| - 1].kind.Echo? then 1 else 0
  }

  lemma {:induction false} AbortedEchoes(timers: seq<Timer>, slot: Option<nat>)
    ensures EchoTimers(Aborted(timers, slot)) == EchoTimers(timers)
    ensures |Aborted(timers, slot)| == |timers|
  {
    if slot.Some? && slot.value < |timers| {
      var n := |timers| - 1;
      if slot.value < n {
        AbortedEchoes(timers[..n], slot);
        assert Aborted(timers, slot)[..n] == Aborted(timers[..n], slot);
      } else {
        assert Aborted(timers, slot)[..n] == timers[..n];
      }
    }
  }

  lemma {:induction false} SpawnedEchoes(timers: seq<Timer>, timer: Timer)
    ensures EchoTimers(timers + [timer]) == EchoTimers(timers) + if timer.kind.Echo? then 1 else 0
  {
    assert (timers + [timer])[..|timers|] == timers;
  }

  /** The sends that have announced that they await an answer. */
  function Asked(senders: seq<Sender>): nat {
    if senders == [] then 0
    else Asked(senders[..|senders| - 1]) + if senders[|senders| - 1].next.ToAwait? then 0 else 1
  }

  lemma {:induction false} AskedAt(senders: seq<Sender>, i: nat, next: Section)
    requires i < |senders|
    ensures Asked(senders[i := senders[i].(next := next)])
            == Asked(senders) + (if senders[i].next.ToAwait? then 1 else 0) - if next.ToAwait? then 1 else 0
  {
    var n := |senders| - 1;
    var moved := senders[i := senders[i].(next := next)];
    if i < n {
      AskedAt(senders[..n], i, next);
      assert moved[..n] == senders[..n][i := senders[i].(next := next)];
    } else {
      assert moved[..n] == senders[..n];
    }
  }

  predicate EchoInv(h: Heart) {
    && EchoTimers(h.slots.timers) == h.slots.received
    && h.slots.received + (if h.slots.awaiting then 1 else 0) <= 1 + Asked(h.senders)
  }

  lemma {:induction false} EchoesOf(s: Slots, kind: TimerKind, wait: nat)
    requires !kind.Echo?
    ensures EchoTimers(WithWatchdog(s, kind, wait).timers) == EchoTimers(s.timers)
  {
    AbortedEchoes(s.timers, s.watchdog);
    SpawnedEchoes(Aborted(s.timers, s.watchdog), Timer(kind, wait, true));
  }

  lemma {:induction false} EchoesHandled(s: Slots, interval: nat)
    ensures EchoTimers(AfterHandle(s, interval).timers) - EchoTimers(s.timers)
            == AfterHandle(s, interval).received - s.received
  {
    AbortedEchoes(s.timers, s.watchdog);
    AbortedEchoes(Aborted(s.timers, s.watchdog), s.echo);
    SpawnedEchoes(Aborted(Aborted(s.timers, s.watchdog), s.echo), Timer(Echo, interval, true));
  }

  lemma {:induction false} EchoesCleared(s: Slots)
    ensures EchoTimers(AfterClear(s).timers) == EchoTimers(s.timers)
  {
    AbortedEchoes(s.timers, s.watchdog);
    AbortedEchoes(Aborted(s.timers, s.watchdog), s.echo);
  }

  lemma {:induction false} StartedAsks(h: Heart, interval: nat)
    ensures Asked(Started(h, interval).senders) == Asked(h.senders)
  {
    assert (h.senders + [Sender(interval, ToAwait)])[..|h.senders|] == h.senders;
  }

  lemma {:induction false} EchoStep(h: Heart, e: HeartEvent, h': Heart)
    requires EchoInv(h) && HeartStep(h, e, h')
    ensures EchoInv(h')
  {
    hide Aborted, EchoTimers, Asked;
    var s := h.slots;
    match e {
      case Initiate(interval) => StartedAsks(h, interval);
      case Await(i) => AskedAt(h.senders, i, ToWrite);
      case Write(i, queued) => AskedAt(h.senders, i, if queued then ToArm else Over);
      case Arm(i) =>
        AskedAt(h.senders, i, Over);
        EchoesOf(s, Negotiated, Doubled(h.senders[i].interval));
      case Expect(timeout) => EchoesOf(s, Initial, timeout);
      case Receive(interval) => EchoesHandled(s, interval);
      case Clear => EchoesCleared(s);
      case Fire(t) =>
        AbortedEchoes(s.timers, Some(t));
        StartedAsks(Fired(h, t), s.timers[t].wait);
      case Close =>
      case StoreClosed =>
    }
  }

  /** In every run each heartbeat accepted starts one echo, and at most one more is accepted than sends have
      asked for an answer: what is not asked for, a repeated echo among it, is ignored. */
  lemma {:induction false} AcceptedAsAsked(run: seq<Heart>, events: seq<HeartEvent>, k: nat)
    requires HeartRun(run, events) && k < |run|
    ensures EchoTimers(run[k].slots.timers) == run[k].slots.received
    ensures run[k].slots.received + (if run[k].slots.awaiting then 1 else 0) <= 1 + Asked(run[k].senders)
  {
    hide HeartStep, EchoTimers, Asked;
    if k == 0 {
      NothingYet();
    } else {
      AcceptedAsAsked(run, events, k - 1);
      assert HeartStep(run[k - 1], events[k - 1], run[k]);
      EchoStep(run[k - 1], events[k - 1], run[k]);
    }
  }

  lemma {:induction false} NothingYet()
    ensures EchoInv(Heart(NewSlots(), Reading, []))
  {
  }
}
