/** What a session puts on the wire: never a frame beyond its limit, and almost nothing once it is closed. */
module SessionSizes {
  import opened Texts
  import opened Frames
  import opened Resources
  import opened Sessions
  import opened SessionClose
  import opened SessionSettlement
  import opened SessionHistory
  import opened SessionLanes
  import opened SessionOrigins

  /** A frame that passed the size check of `enqueue` is within the limit. */
  predicate Sized(c: Config, t: Thread) {
    t.sent || (t.pc.Sending? && !t.pc.stage.Start?) ==> QueuePermit(t).bytes <= c.maxMessage
  }

  ghost predicate AllSized(c: Config, ts: seq<Thread>) {
    forall k :: 0 <= k < |ts| ==> Sized(c, ts[k])
  }

  lemma {:induction false} CallSized(c: Config, s: State, e: Event, s': State)
    requires Typed(s.threads) && AllSized(c, s.threads) && CallStep(c, s, e, s')
    ensures AllSized(c, s'.threads)
  {
    hide Wire, Admits, Counts.Charge, Counts.Refund;
  }

  lemma {:induction false} SendSized(c: Config, s: State, e: Event, s': State)
    requires AllSized(c, s.threads) && SendStep(c, s, e, s')
    ensures AllSized(c, s'.threads)
  {
    hide Wire, Admits, Counts.Charge, Counts.Refund, HasRoom;
  }

  lemma {:induction false} HandleSized(c: Config, s: State, e: Event, s': State)
    requires Typed(s.threads) && AllSized(c, s.threads) && HandleStep(c, s, e, s')
    ensures AllSized(c, s'.threads)
  {
    hide Wire, Admits, Counts.Charge, Counts.Refund;
    assert PcFits(s.threads[e.i]);
  }

  lemma {:induction false} DriverSized(c: Config, s: State, e: Event, s': State)
    requires AllSized(c, s.threads) && DriverStep(s, e, s')
    ensures AllSized(c, s'.threads)
  {
    hide Wire, Released, Taken, GivenBack, AfterTask;
  }

  lemma {:induction false} StepSized(c: Config, s: State, e: Event, s': State)
    requires CloseInv(s) && AllSized(c, s.threads) && Step(c, s, e, s')
    ensures AllSized(c, s'.threads)
  {
    hide CallStep, SendStep, HandleStep, DriverStep, WriterStep, AllSized, Phases, Tasks, Linked, UniqueIds, Typed;
    if CallStep(c, s, e, s') {
      CallSized(c, s, e, s');
    } else if SendStep(c, s, e, s') {
      SendSized(c, s, e, s');
    } else if HandleStep(c, s, e, s') {
      HandleSized(c, s, e, s');
    } else if DriverStep(s, e, s') {
      DriverSized(c, s, e, s');
    } else {
      WriterKeepsThreads(s, e, s');
    }
  }

  lemma {:induction false} RunSized(c: Config, run: seq<State>, events: seq<Event>, k: nat)
    requires Run(c, run, events) && k < |run|
    ensures AllSized(c, run[k].threads)
  {
    hide Step, Sized, CloseInv;
    if k > 0 {
      RunSized(c, run, events, k - 1);
      RunKeeps(c, run, events, k - 1);
      assert StepAt(c, run, events, k - 1);
      StepSized(c, run[k - 1], events[k - 1], run[k]);
    }
  }

  /** No frame that is queued, with the writer or written is longer than the session permits. */
  lemma {:induction false} WrittenWithinLimit(c: Config, run: seq<State>, events: seq<Event>, k: nat, f: Frame)
    requires Run(c, run, events) && k < |run| && f in run[k].log.wire
    ensures |Wire(f)| <= c.maxMessage
  {
    hide Run, Wire;
    var s := run[k];
    RunSized(c, run, events, k);
    RunSourced(c, run, events, k);
    var m: nat :| m < |s.log.wire| && s.log.wire[m] == f;
    assert SentBy(s.threads, s.log.senders[m], f);
    assert Sized(c, s.threads[s.log.senders[m]]);
  }

  // ----- after close

  function Buffered(out: Output): nat {
    if out.sink.Some? then 1 else 0
  }

  lemma {:induction false} WriterAfterClose(s: State, e: Event, s': State)
    requires WriterStep(s, e, s') && !s.gate.open && Flushed(s.log, s.out)
    ensures |s'.log.wire| + Buffered(s'.out) <= |s.log.wire| + Buffered(s.out)
  {
    hide Counts.Refund;
  }

  /** Once a session is closed no write begins: at most the frame already in the sink is still written. */
  lemma {:induction false} NothingStartsAfterClose(c: Config, run: seq<State>, events: seq<Event>, j: nat, k: nat)
    requires Run(c, run, events) && j <= k < |run| && !run[j].gate.open
    ensures |run[k].log.wire| + Buffered(run[k].out) <= |run[j].log.wire| + Buffered(run[j].out)
  {
    hide Step, CallStep, SendStep, HandleStep, DriverStep, WriterStep, Flushed, InOrder;
    if j < k {
      var s, e, s' := run[k - 1], events[k - 1], run[k];
      NothingStartsAfterClose(c, run, events, j, k - 1);
      GateMonotone(c, run, events, j, k - 1);
      RunKeepsLanes(c, run, events, k - 1);
      assert StepAt(c, run, events, k - 1);
      if WriterStep(s, e, s') {
        WriterAfterClose(s, e, s');
      } else {
        OthersWriteNothing(c, s, e, s');
      }
    }
  }

  lemma {:induction false} OthersWriteNothing(c: Config, s: State, e: Event, s': State)
    requires Step(c, s, e, s') && !WriterStep(s, e, s')
    ensures s'.log.wire == s.log.wire && s'.out.sink == s.out.sink
  {
    hide CallStep, SendStep, HandleStep, ReadStep, CloseStep, WriterStep;
    if CallStep(c, s, e, s') || HandleStep(c, s, e, s') {
      CallLeavesLanes(c, s, e, s');
    } else if SendStep(c, s, e, s') {
      if Pushes(c, s, e) {
        PushAppends(c, s, e, s');
      } else {
        SendLeavesLanes(c, s, e, s');
      }
    } else if ReadStep(s, e, s') {
      ReadLeavesLanes(s, e, s');
    } else {
      CloseLeavesLanes(s, e, s');
    }
  }
}
