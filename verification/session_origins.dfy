/** Every frame on its way out, or out, is the frame of one thread that queued it. */
module SessionOrigins {
  import opened Texts
  import opened Frames
  import opened Resources
  import opened Sessions
  import opened SessionClose
  import opened SessionSettlement
  import opened SessionHistory
  import opened SessionLanes

  /** Thread `from` has queued exactly this frame. */
  predicate SentBy(ts: seq<Thread>, from: nat, f: Frame) {
    from < |ts| && ts[from].sent && Outgoing(ts[from]) == f
  }

  predicate ItemFits(ts: seq<Thread>, item: Item) {
    SentBy(ts, item.from, item.frame) && item.permit == QueuePermit(ts[item.from])
  }

  ghost predicate AllFit(ts: seq<Thread>, items: seq<Item>) {
    forall k :: 0 <= k < |items| ==> ItemFits(ts, items[k])
  }

  predicate WriterFits(ts: seq<Thread>, w: Writer) {
    w.Picked? || w.Writing? || w.Failing? ==> ItemFits(ts, w.item)
  }

  ghost predicate WireFits(ts: seq<Thread>, log: Log) {
    && |log.senders| == |log.wire|
    && (forall k :: 0 <= k < |log.wire| ==> SentBy(ts, log.senders[k], log.wire[k]))
  }

  ghost predicate Sourced(ts: seq<Thread>, out: Output, log: Log) {
    && AllFit(ts, out.data) && AllFit(ts, out.control)
    && WriterFits(ts, out.writer)
    && (out.sink.Some? ==> ItemFits(ts, out.sink.value))
    && WireFits(ts, log)
  }

  /** What has been sent does not change. */
  ghost predicate Stable(ts: seq<Thread>, ts': seq<Thread>) {
    && |ts| <= |ts'|
    && (forall k :: 0 <= k < |ts| && ts[k].sent ==>
          ts'[k].sent && Outgoing(ts'[k]) == Outgoing(ts[k]) && QueuePermit(ts'[k]) == QueuePermit(ts[k]))
  }

  lemma {:induction false} StepStable(c: Config, s: State, e: Event, s': State)
    requires CloseInv(s) && Traced(s) && Step(c, s, e, s')
    ensures Stable(s.threads, s'.threads)
  {
    hide Step;
    ThreadsGrow(c, s, e, s');
    GrownStable(s.counters.frames, s.threads, s'.threads);
  }

  lemma {:induction false} GrownStable(frames: nat, ts: seq<Thread>, ts': seq<Thread>)
    requires Typed(ts) && Grown(frames, ts, ts')
    ensures Stable(ts, ts')
  {
    forall k | 0 <= k < |ts| && ts[k].sent
      ensures ts'[k].sent && Outgoing(ts'[k]) == Outgoing(ts[k]) && QueuePermit(ts'[k]) == QueuePermit(ts[k])
    {
      assert PcFits(ts[k]) && Evolves(ts[k], ts'[k]);
    }
  }

  lemma {:induction false} StableFits(ts: seq<Thread>, ts': seq<Thread>, out: Output, log: Log)
    requires Stable(ts, ts') && Sourced(ts, out, log)
    ensures Sourced(ts', out, log)
  {
  }

  lemma {:induction false} PushSourced(c: Config, s: State, e: Event, s': State)
    requires SendStep(c, s, e, s') && Pushes(c, s, e) && Sourced(s'.threads, s.out, s.log)
    ensures Sourced(s'.threads, s'.out, s'.log)
  {
    PushAppends(c, s, e, s');
    assert ItemFits(s'.threads, Item(Outgoing(s.threads[e.i]), QueuePermit(s.threads[e.i]), e.i));
  }

  lemma {:induction false} WritesSourced(ts: seq<Thread>, s: State, e: Event, s': State)
    requires WriteStep(s, e, s') && Sourced(ts, s.out, s.log)
    ensures Sourced(ts, s'.out, s'.log)
  {
  }

  lemma {:induction false} WindUpSourced(ts: seq<Thread>, s: State, e: Event, s': State)
    requires WindUpStep(s, e, s') && Sourced(ts, s.out, s.log)
    ensures Sourced(ts, s'.out, s'.log)
  {
  }

  lemma {:induction false} StepSourced(c: Config, s: State, e: Event, s': State)
    requires CloseInv(s) && Traced(s) && Step(c, s, e, s') && Sourced(s.threads, s.out, s.log)
    ensures Sourced(s'.threads, s'.out, s'.log)
  {
    hide CallStep, SendStep, HandleStep, ReadStep, CloseStep, WriteStep, WindUpStep, Traced, CloseInv;
    StepStable(c, s, e, s');
    StableFits(s.threads, s'.threads, s.out, s.log);
    if CallStep(c, s, e, s') || HandleStep(c, s, e, s') {
      CallLeavesLanes(c, s, e, s');
    } else if SendStep(c, s, e, s') {
      if Pushes(c, s, e) {
        PushSourced(c, s, e, s');
      } else {
        SendLeavesLanes(c, s, e, s');
      }
    } else if ReadStep(s, e, s') {
      ReadLeavesLanes(s, e, s');
    } else if CloseStep(s, e, s') {
      CloseLeavesLanes(s, e, s');
    } else if WriteStep(s, e, s') {
      WritesSourced(s'.threads, s, e, s');
    } else {
      WindUpSourced(s'.threads, s, e, s');
    }
  }

  lemma {:induction false} RunSourced(c: Config, run: seq<State>, events: seq<Event>, k: nat)
    requires Run(c, run, events) && k < |run|
    ensures Sourced(run[k].threads, run[k].out, run[k].log)
  {
    hide Step, CloseInv, Traced;
    if k > 0 {
      RunSourced(c, run, events, k - 1);
      RunTraced(c, run, events, k - 1);
      assert StepAt(c, run, events, k - 1);
      StepSourced(c, run[k - 1], events[k - 1], run[k]);
    }
  }
}
