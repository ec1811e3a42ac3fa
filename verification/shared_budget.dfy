/** Any number of sessions, connection attempts and hooks on one shared budget. */
module SharedBudgets {
  import opened Texts
  import opened Frames
  import opened Resources
  import opened Sessions
  import opened SessionClose
  import opened SessionPermits

  /** `outside` are the permits that no session's accounting covers: those of connections, upgrades
      and lifecycle hooks. */
  datatype System = System(configs: seq<Config>, sessions: seq<State>, shared: Counts, outside: seq<Permit>)

  datatype SystemEvent =
    | Open(config: Config)
    | Within(n: nat, e: Event)
    | Admit(p: Permit, granted: bool)
    | Release(k: nat)

  predicate OutsidePermit(p: Permit) {
    (p.resource == Connection || p.resource == Handler) && p.bytes == 0
  }

  /** What the step of a session does to the shared counters, answering what it asked. */
  predicate SharedAnswers(limits: Counts, u: Counts, s: State, e: Event, u': Counts) {
    if Asked(s, e).Some? then
      && (Granted(e) <==> Admits(limits, u, Asked(s, e).value))
      && u' == (if Granted(e) then u.Charge(Asked(s, e).value) else u)
    else if e.ReleaseShared? && e.k < |s.ledger.dropping| then u' == u.Refund(s.ledger.dropping[e.k])
    else u' == u
  }

  ghost predicate WithinStep(limits: Counts, sys: System, n: nat, e: Event, sys': System) {
    && n < |sys.sessions| == |sys.configs| == |sys'.sessions|
    && Step(sys.configs[n], sys.sessions[n], e, sys'.sessions[n])
    && sys'.sessions == sys.sessions[n := sys'.sessions[n]]
    && sys'.configs == sys.configs && sys'.outside == sys.outside
    && SharedAnswers(limits, sys.shared, sys.sessions[n], e, sys'.shared)
  }

  ghost predicate SystemStep(limits: Counts, sys: System, e: SystemEvent, sys': System) {
    match e
    case Open(config) =>
      && WithinLimits(NOTHING, config.limits)
      && sys' == sys.(configs := sys.configs + [config], sessions := sys.sessions + [InitialState()])
    case Within(n, event) => WithinStep(limits, sys, n, event, sys')
    case Admit(p, granted) =>
      && OutsidePermit(p) && (granted <==> Admits(limits, sys.shared, p))
      && sys' == if granted then sys.(shared := sys.shared.Charge(p), outside := sys.outside + [p]) else sys
    case Release(k) =>
      && k < |sys.outside|
      && sys' == sys.(shared := sys.shared.Refund(sys.outside[k]), outside := Without(sys.outside, k))
  }

  ghost predicate SystemStepAt(limits: Counts, run: seq<System>, events: seq<SystemEvent>, k: nat)
    requires k < |events| && |run| == |events| + 1
  {
    SystemStep(limits, run[k], events[k], run[k + 1])
  }

  ghost predicate SystemRun(limits: Counts, run: seq<System>, events: seq<SystemEvent>) {
    && WithinLimits(NOTHING, limits)
    && |run| == |events| + 1
    && run[0] == System([], [], NOTHING, [])
    && forall k :: 0 <= k < |events| ==> SystemStepAt(limits, run, events, k)
  }

  function SumShared(ss: seq<State>, g: Gauge): int {
    if ss == [] then 0 else SumShared(ss[..|ss| - 1], g) + SharedHeld(ss[|ss| - 1], g)
  }

  function SumOwn(ss: seq<State>, g: Gauge): int {
    if ss == [] then 0 else SumOwn(ss[..|ss| - 1], g) + ss[|ss| - 1].ledger.usage.At(g)
  }

  lemma {:induction false} SumAppend(ss: seq<State>, s: State, g: Gauge)
    ensures SumShared(ss + [s], g) == SumShared(ss, g) + SharedHeld(s, g)
  {
    hide SharedHeld;
    assert (ss + [s])[..|ss|] == ss;
  }

  lemma {:induction false} SumUpdate(ss: seq<State>, n: nat, s: State, g: Gauge)
    requires n < |ss|
    ensures SumShared(ss[n := s], g) + SharedHeld(ss[n], g) == SumShared(ss, g) + SharedHeld(s, g)
    decreases |ss|
  {
    hide SharedHeld;
    var m := |ss| - 1;
    if n == m {
      assert ss[n := s][..m] == ss[..m];
    } else {
      SumUpdate(ss[..m], n, s, g);
      assert ss[n := s][..m] == ss[..m][n := s];
    }
  }

  lemma {:induction false} SumNonNegative(ss: seq<State>, g: Gauge)
    ensures SumShared(ss, g) >= 0
  {
    hide Total, Weight, ThreadsHold;
    if ss != [] {
      SumNonNegative(ss[..|ss| - 1], g);
      HalfIsPart(ss[|ss| - 1].threads, g);
    }
  }

  // ----- what every step keeps

  /** The shared counters are the sum of what the sessions hold and of the outside permits. */
  ghost predicate SharedBalanced(limits: Counts, sys: System) {
    && (forall g :: sys.shared.At(g) == SumShared(sys.sessions, g) + Total(sys.outside, g))
    && WithinLimits(sys.shared, limits)
    && (forall k :: 0 <= k < |sys.outside| ==> OutsidePermit(sys.outside[k]))
  }

  ghost predicate SessionsSound(sys: System) {
    && |sys.sessions| == |sys.configs|
    && forall n :: 0 <= n < |sys.sessions| ==> CloseInv(sys.sessions[n]) && Balanced(sys.configs[n], sys.sessions[n])
  }

  lemma {:induction false} InitialBalanced(c: Config)
    requires WithinLimits(NOTHING, c.limits)
    ensures CloseInv(InitialState()) && Balanced(c, InitialState())
    ensures forall g :: SharedHeld(InitialState(), g) == 0
  {
  }

  lemma {:induction false} StepSound(limits: Counts, sys: System, e: SystemEvent, sys': System)
    requires SessionsSound(sys) && SystemStep(limits, sys, e, sys')
    ensures SessionsSound(sys')
  {
    hide CloseInv, Balanced, Step, InitialState, SharedAnswers;
    match e {
      case Open(config) => InitialBalanced(config);
      case Within(n, event) =>
        StepKeeps(sys.configs[n], sys.sessions[n], event, sys'.sessions[n]);
        StepBalanced(sys.configs[n], sys.sessions[n], event, sys'.sessions[n]);
      case Admit(p, granted) =>
      case Release(k) =>
    }
  }

  /** The counters move as the holdings do. */
  lemma {:induction false} SharedMoves(limits: Counts, sys: System, e: SystemEvent, sys': System, g: Gauge)
    requires SessionsSound(sys) && SystemStep(limits, sys, e, sys')
    requires sys.shared.At(g) == SumShared(sys.sessions, g) + Total(sys.outside, g)
    ensures sys'.shared.At(g) == SumShared(sys'.sessions, g) + Total(sys'.outside, g)
  {
    hide CloseInv, Balanced, Step, InitialState, SharedHeld, Counts.At, Counts.Charge, Counts.Refund, Weight, Total,
         SumShared, Admits;
    match e {
      case Open(config) =>
        InitialBalanced(config);
        SumAppend(sys.sessions, InitialState(), g);
        assert SharedHeld(InitialState(), g) == 0;
      case Within(n, event) => WithinMoves(limits, sys, n, event, sys', g);
      case Admit(p, granted) =>
        ChargeAt(sys.shared, p, g);
        TotalAppend(sys.outside, p, g);
      case Release(k) =>
        ChargeAt(sys.shared, sys.outside[k], g);
        TotalWithout(sys.outside, k, g);
    }
  }

  lemma {:induction false} WithinMoves(limits: Counts, sys: System, n: nat, e: Event, sys': System, g: Gauge)
    requires SessionsSound(sys) && WithinStep(limits, sys, n, e, sys')
    ensures sys'.shared.At(g) - sys.shared.At(g) == SumShared(sys'.sessions, g) - SumShared(sys.sessions, g)
  {
    hide CloseInv, Balanced, Step, SharedHeld, Held, Counts.At, Counts.Charge, Counts.Refund, Weight, SumShared, Admits;
    var s, s' := sys.sessions[n], sys'.sessions[n];
    StepAccounts(sys.configs[n], s, e, s', g);
    SumUpdate(sys.sessions, n, s', g);
    if Asked(s, e).Some? {
      ChargeAt(sys.shared, Asked(s, e).value, g);
    } else if e.ReleaseShared? && e.k < |s.ledger.dropping| {
      ChargeAt(sys.shared, s.ledger.dropping[e.k], g);
    }
  }

  /** At most one admitted permit is charged, or one refunded. */
  ghost predicate SharedUsage(limits: Counts, u: Counts, u': Counts) {
    || u' == u
    || (exists p :: Admits(limits, u, p) && u' == u.Charge(p))
    || (exists p :: u' == u.Refund(p))
  }

  lemma {:induction false} StepSharedUsage(limits: Counts, sys: System, e: SystemEvent, sys': System)
    requires SystemStep(limits, sys, e, sys')
    ensures SharedUsage(limits, sys.shared, sys'.shared)
  {
    hide Step, Admits, Counts.Charge, Counts.Refund, FramePermit;
  }

  lemma {:induction false} StepSharedBalanced(limits: Counts, sys: System, e: SystemEvent, sys': System)
    requires SessionsSound(sys) && SharedBalanced(limits, sys) && SystemStep(limits, sys, e, sys')
    ensures SharedBalanced(limits, sys')
  {
    hide CloseInv, SessionsSound, WithinStep, SharedHeld, Counts.At, Counts.Charge, Counts.Refund, Weight, Total,
         SumShared, Admits;
    var u, u' := sys.shared, sys'.shared;
    forall g ensures u'.At(g) == SumShared(sys'.sessions, g) + Total(sys'.outside, g) && u'.At(g) >= 0 {
      SharedMoves(limits, sys, e, sys', g);
      SumNonNegative(sys'.sessions, g);
    }
    StepSharedUsage(limits, sys, e, sys');
    StepLimits(limits, u, u');
    StepOutside(limits, sys, e, sys');
  }

  lemma {:induction false} StepOutside(limits: Counts, sys: System, e: SystemEvent, sys': System)
    requires SystemStep(limits, sys, e, sys')
    requires forall k :: 0 <= k < |sys.outside| ==> OutsidePermit(sys.outside[k])
    ensures forall k :: 0 <= k < |sys'.outside| ==> OutsidePermit(sys'.outside[k])
  {
    hide Step, Admits, SharedAnswers, Counts.Charge, Counts.Refund;
  }

  lemma {:induction false} StepLimits(limits: Counts, u: Counts, u': Counts)
    requires WithinLimits(u, limits) && SharedUsage(limits, u, u') && forall g :: u'.At(g) >= 0
    ensures WithinLimits(u', limits)
  {
    hide Counts.At, Counts.Charge, Counts.Refund, Weight, Admits;
    if p :| Admits(limits, u, p) && u' == u.Charge(p) {
      AdmitsExactly(limits, u, p);
    } else if p :| u' == u.Refund(p) {
      forall g ensures 0 <= u'.At(g) <= limits.At(g) {
        ChargeAt(u, p, g);
        assert 0 <= u.At(g) <= limits.At(g);
      }
    }
  }

  /** Whatever the sessions, connections and hooks do: the shared counters are the sum of all that is
      held, and within their limits. */
  lemma {:induction false} RunSharedBalanced(limits: Counts, run: seq<System>, events: seq<SystemEvent>, k: nat)
    requires SystemRun(limits, run, events) && k < |run|
    ensures SessionsSound(run[k]) && SharedBalanced(limits, run[k])
  {
    hide SystemStep, CloseInv, Balanced;
    if k == 0 {
      forall g ensures NOTHING.At(g) == 0 {}
    } else {
      RunSharedBalanced(limits, run, events, k - 1);
      assert SystemStepAt(limits, run, events, k - 1);
      StepSound(limits, run[k - 1], events[k - 1], run[k]);
      StepSharedBalanced(limits, run[k - 1], events[k - 1], run[k]);
    }
  }

  // ----- when nothing is half done

  /** No thread waits for the shared budget, and no drop is half done. */
  ghost predicate Settled(s: State) {
    && s.ledger.dropping == []
    && (forall k :: 0 <= k < |s.threads| ==> !HalfDone(s.threads[k]))
  }

  predicate HalfDone(t: Thread) {
    t.pc.RequestOwn? || t.pc == Sending(Own) || t.pc.TaskOwn?
  }

  lemma {:induction false} NoHalves(ts: seq<Thread>, g: Gauge)
    requires forall k :: 0 <= k < |ts| ==> !HalfDone(ts[k])
    ensures ThreadsHold(ts, true, g) == 0
  {
    hide Weight, FramePermit;
    if ts != [] {
      assert !HalfDone(ts[|ts| - 1]);
      NoHalves(ts[..|ts| - 1], g);
    }
  }

  lemma {:induction false} SumsAgree(configs: seq<Config>, ss: seq<State>, g: Gauge)
    requires |configs| == |ss|
    requires forall n :: 0 <= n < |ss| ==> Settled(ss[n]) && Balanced(configs[n], ss[n])
    ensures SumShared(ss, g) == SumOwn(ss, g)
  {
    hide Counts.At, Weight, ThreadsHold, Held, HalfDone;
    if ss != [] {
      var m := |ss| - 1;
      SumsAgree(configs[..m], ss[..m], g);
      assert Settled(ss[m]) && Balanced(configs[m], ss[m]);
      NoHalves(ss[m].threads, g);
      assert ss[m].ledger.usage.At(g) == Held(ss[m], g);
    }
  }

  lemma {:induction false} OutsideWeighsNothing(outside: seq<Permit>, g: Gauge)
    requires forall k :: 0 <= k < |outside| ==> OutsidePermit(outside[k])
    requires g != Connections && g != HandlerTasks
    ensures Total(outside, g) == 0
  {
    if outside != [] {
      assert OutsidePermit(outside[|outside| - 1]);
      OutsideWeighsNothing(outside[..|outside| - 1], g);
    }
  }

  /** For requests, data and control frames, the shared usage is the sum of the sessions' own usage
      whenever no reservation and no release is half done; for handlers, the hooks come on top. */
  lemma {:induction false} SharedIsSum(limits: Counts, run: seq<System>, events: seq<SystemEvent>, k: nat, g: Gauge)
    requires SystemRun(limits, run, events) && k < |run|
    requires forall n :: 0 <= n < |run[k].sessions| ==> Settled(run[k].sessions[n])
    ensures run[k].shared.At(g) == SumOwn(run[k].sessions, g) + Total(run[k].outside, g)
    ensures g != Connections && g != HandlerTasks ==> run[k].shared.At(g) == SumOwn(run[k].sessions, g)
  {
    hide SystemRun, CloseInv, Balanced, Counts.At, Settled, SumShared, SumOwn, Total, OutsidePermit;
    var sys := run[k];
    RunSharedBalanced(limits, run, events, k);
    SumsAgree(sys.configs, sys.sessions, g);
    assert sys.shared.At(g) == SumShared(sys.sessions, g) + Total(sys.outside, g);
    if g != Connections && g != HandlerTasks {
      OutsideWeighsNothing(sys.outside, g);
    }
  }

  // ----- each session of a system is a session

  lemma {:induction false} RunExtends(c: Config, run: seq<State>, events: seq<Event>, e: Event, s': State)
    requires |run| == |events| + 1 && Sessions.Run(c, run, events) && Step(c, run[|events|], e, s')
    ensures Sessions.Run(c, run + [s'], events + [e])
  {
    hide Step, InitialState;
    var r, es := run + [s'], events + [e];
    forall k | 0 <= k < |es| ensures StepAt(c, r, es, k) {
      if k < |events| {
        assert StepAt(c, run, events, k);
      }
    }
  }

  /** The steps within session `n`, from when it was opened, are a run of a session. */
  lemma {:induction false} Project(limits: Counts, run: seq<System>, events: seq<SystemEvent>, k: nat, n: nat)
    returns (r: seq<State>, es: seq<Event>)
    requires SystemRun(limits, run, events) && k < |run| && n < |run[k].sessions|
    ensures |run[k].configs| == |run[k].sessions| && WithinLimits(NOTHING, run[k].configs[n].limits)
    ensures |r| == |es| + 1 && Sessions.Run(run[k].configs[n], r, es) && r[|es|] == run[k].sessions[n]
  {
    hide Step, InitialState, SharedAnswers, Admits, Counts.Charge, Counts.Refund, WithinLimits, Sessions.Run;
    var sys, e, sys' := run[k - 1], events[k - 1], run[k];
    assert SystemStepAt(limits, run, events, k - 1);
    if n < |sys.sessions| {
      r, es := Project(limits, run, events, k - 1, n);
      if e.Within? && e.n == n {
        RunExtends(sys.configs[n], r, es, e.e, sys'.sessions[n]);
        r, es := r + [sys'.sessions[n]], es + [e.e];
      }
    } else {
      SameSizes(limits, run, events, k - 1);
      FreshRun(e.config);
      r, es := [InitialState()], [];
    }
  }

  lemma {:induction false} FreshRun(c: Config)
    ensures Sessions.Run(c, [InitialState()], [])
  {
  }

  lemma {:induction false} SameSizes(limits: Counts, run: seq<System>, events: seq<SystemEvent>, k: nat)
    requires SystemRun(limits, run, events) && k < |run|
    ensures |run[k].configs| == |run[k].sessions|
  {
    hide CloseInv, Balanced, SystemStep, SharedBalanced;
    RunSharedBalanced(limits, run, events, k);
  }

  /** The bytes of one lane that all sessions together retain. */
  function AllRetained(ss: seq<State>, data: bool): nat {
    if ss == [] then 0 else AllRetained(ss[..|ss| - 1], data) + Retained(ss[|ss| - 1], data)
  }

  lemma {:induction false} RetainedIsHeld(ss: seq<State>, data: bool)
    requires forall n :: 0 <= n < |ss| ==> Retained(ss[n], data) <= SharedHeld(ss[n], BytesGauge(data))
    ensures AllRetained(ss, data) <= SumShared(ss, BytesGauge(data))
  {
    hide Retained, SharedHeld;
    if ss != [] {
      RetainedIsHeld(ss[..|ss| - 1], data);
    }
  }

  /** At every moment what all the sessions on a budget retain is covered by it. */
  lemma {:induction false} SharedRetainedCovered(limits: Counts, run: seq<System>, events: seq<SystemEvent>, k: nat,
                                                 data: bool)
    requires SystemRun(limits, run, events) && k < |run|
    ensures var g := BytesGauge(data);
            AllRetained(run[k].sessions, data) <= run[k].shared.At(g) <= limits.At(g)
  {
    hide SystemRun, Sessions.Run, SessionsSound, Counts.At, Retained, SharedHeld, SumShared, AllRetained, WithinLimits;
    var sys, g := run[k], BytesGauge(data);
    RunSharedBalanced(limits, run, events, k);
    forall n | 0 <= n < |sys.sessions| ensures Retained(sys.sessions[n], data) <= SharedHeld(sys.sessions[n], g) {
      var r, es := Project(limits, run, events, k, n);
      RetainedBytesCovered(sys.configs[n], r, es, |es|, data);
    }
    RetainedIsHeld(sys.sessions, data);
    LimitAt(sys.shared, limits, g);
    assert sys.shared.At(g) == SumShared(sys.sessions, g) + Total(sys.outside, g);
  }

  lemma {:induction false} LimitAt(u: Counts, limits: Counts, g: Gauge)
    requires WithinLimits(u, limits)
    ensures 0 <= u.At(g) <= limits.At(g)
  {
  }

  /** What a session asks of the shared budget is granted exactly if the permit fits within the limits beside all
      that sessions, connections and hooks hold; a refusal leaves the counters as they are. */
  lemma {:induction false} GrantedExactly(limits: Counts, run: seq<System>, events: seq<SystemEvent>, k: nat,
                                          n: nat, e: Event, p: Permit)
    requires SystemRun(limits, run, events) && k < |events| && events[k] == Within(n, e)
    requires n < |run[k].sessions| && Asked(run[k].sessions[n], e) == Some(p)
    ensures Granted(e) <==> WithinLimits(run[k].shared.Charge(p), limits)
    ensures run[k + 1].shared == if Granted(e) then run[k].shared.Charge(p) else run[k].shared
  {
    hide Step, SystemRun, SessionsSound, Admits, Asked, Granted, Counts.Charge, Balanced;
    SystemStepOf(limits, run, events, k);
    RunSharedBalanced(limits, run, events, k);
    AdmitsExactly(limits, run[k].shared, p);
  }

  lemma {:induction false} SystemStepOf(limits: Counts, run: seq<System>, events: seq<SystemEvent>, k: nat)
    requires SystemRun(limits, run, events) && k < |events|
    ensures |run| == |events| + 1 && SystemStep(limits, run[k], events[k], run[k + 1])
  {
    hide SystemStep;
    assert SystemStepAt(limits, run, events, k);
  }
}
