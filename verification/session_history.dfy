/** Where results come from: every settled exchange, handled message and queued frame can be traced
    to what was received and to the thread that produced it. */
module SessionHistory {
  import opened Texts
  import opened Frames
  import opened Resources
  import opened Sessions
  import opened SessionClose
  import opened SessionSettlement

  /** An outcome that only the peer or the closing of the session can bring about. */
  predicate NeedsSender(o: Outcome) {
    o.Acked? || o.Refused? || o == Failed(SessionClosed)
  }

  predicate FromPeer(received: seq<Frame>, id: Id, o: Outcome) {
    match o
    case Acked(result, arrival) => 1 <= arrival <= |received| && received[arrival - 1] == Ack(id, result)
    case Refused(problem) => Nak(id, problem) in received
    case Failed(why) => why == SessionClosed
  }

  /** A reply belongs to its message, and an ACK carries what the handler returned. */
  predicate ReplyFits(id: Id, result: Option<HandlerResult>, reply: Frame) {
    && (reply.Ack? || reply.Nak?) && reply.id == id
    && (reply.Ack? ==> result.Some?)
    && (result.Some? ==> reply == ReplyTo(id, result.value))
  }

  predicate ThreadTraced(received: seq<Frame>, t: Thread) {
    match t.task
    case Call(id, _, slot) =>
      && (slot.Some? ==> FromPeer(received, id, slot.value))
      && ((t.pc.Cleanup? || t.pc.Ended?) && NeedsSender(t.pc.outcome) ==> slot == Some(t.pc.outcome))
    case Handle(id, payload, arrival, result, reply, _) =>
      && 1 <= arrival <= |received| && received[arrival - 1] == Message(id, payload)
      && ReplyFits(id, result, reply)
      && (!Answered(t.pc) ==> result.None?)
    case Beat(_) => true
  }

  ghost predicate Traced(s: State) {
    && s.counters.frames == |s.log.received|
    && (forall k :: 0 <= k < |s.threads| ==> ThreadTraced(s.log.received, s.threads[k]))
    && (s.driver.Delivering? ==>
          && s.driver.thread < |s.threads| && s.threads[s.driver.thread].task.Call?
          && FromPeer(s.log.received, s.threads[s.driver.thread].task.id, s.driver.outcome)
          && !s.driver.outcome.Failed?)
    && (forall k :: 0 <= k < |s.threads| && s.threads[k].task.Call?
                    && s.threads[k].task.slot == Some(Failed(SessionClosed))
                    ==> s.driver.Draining? || s.driver.Done?)
  }

  /** Messages are handled in the order in which they arrived. */
  ghost predicate Ordered(ts: seq<Thread>) {
    forall j, k :: 0 <= j < k < |ts| && ts[j].task.Handle? && ts[k].task.Handle?
                   ==> ts[j].task.arrival < ts[k].task.arrival
  }

  /** Thread `i` moves; nothing is received. */
  lemma {:induction false} TracedMove(s: State, s': State, i: nat)
    requires Traced(s) && i < |s.threads| == |s'.threads| && s'.threads == s.threads[i := s'.threads[i]]
    requires s'.counters.frames == s.counters.frames && s'.log.received == s.log.received
    requires s'.driver == s.driver || s'.driver.Selecting?
    requires s'.driver == s.driver || (!s.driver.Draining? && !s.driver.Done?)
    requires ThreadTraced(s.log.received, s'.threads[i])
    requires s.threads[i].task.Call? <==> s'.threads[i].task.Call?
    requires s.threads[i].task.Call? ==> s'.threads[i].task == s.threads[i].task
    ensures Traced(s')
  {
  }

  lemma {:induction false} CallTraced(c: Config, s: State, e: Event, s': State)
    requires CloseInv(s) && Traced(s) && CallStep(c, s, e, s') && !e.Send?
    ensures e.i < |s.threads| == |s'.threads| && s'.threads == s.threads[e.i := s'.threads[e.i]]
    ensures s.threads[e.i].task.Call? && s'.threads[e.i].task == s.threads[e.i].task
    ensures s'.threads[e.i].sent == s.threads[e.i].sent
    ensures ThreadTraced(s.log.received, s'.threads[e.i])
    ensures s'.counters == s.counters && s'.log == s.log && s'.driver == s.driver
    ensures s'.out == s.out && s'.gate == s.gate
  {
    hide Admits, QueuePermit, TaskPermit, Phases, Tasks, Linked, UniqueIds, Released, Taken, GivenBack;
    SenderPresent(c, s, e, s');
    assert ThreadTraced(s.log.received, s.threads[e.i]);
  }

  lemma {:induction false} CallsTraced(c: Config, s: State, e: Event, s': State)
    requires CloseInv(s) && Traced(s) && CallStep(c, s, e, s')
    ensures Traced(s')
  {
    if e.Send? {
      AppendTraced(s, s', s'.threads[|s.threads|]);
    } else {
      CallTraced(c, s, e, s');
      TracedMove(s, s', e.i);
    }
  }

  lemma {:induction false} AppendTraced(s: State, s': State, t: Thread)
    requires Traced(s) && s'.threads == s.threads + [t] && ThreadTraced(s.log.received, t)
    requires t.task.Call? ==> t.task.slot.None?
    requires s'.counters == s.counters && s'.log == s.log && s'.driver == s.driver
    ensures Traced(s')
  {
  }

  lemma {:induction false} SendTraced(c: Config, s: State, e: Event, s': State)
    requires CloseInv(s) && Traced(s) && SendStep(c, s, e, s') && !e.StartBeat?
    ensures e.i < |s.threads| == |s'.threads| && s'.threads == s.threads[e.i := s'.threads[e.i]]
    ensures s.threads[e.i].task.Call? <==> s'.threads[e.i].task.Call?
    ensures s.threads[e.i].task.Call? ==> s'.threads[e.i].task == s.threads[e.i].task
    ensures ThreadTraced(s.log.received, s'.threads[e.i])
    ensures s'.counters == s.counters && s'.log.received == s.log.received
    ensures s'.driver == s.driver || (s.driver.Handling? && s'.driver.Selecting?)
  {
    hide Admits, QueuePermit, TaskPermit, Phases, Tasks, Linked, UniqueIds, HasRoom, Released, Taken,
         GivenBack, AfterTask;
    assert ThreadTraced(s.log.received, s.threads[e.i]);
  }

  lemma {:induction false} SendsTraced(c: Config, s: State, e: Event, s': State)
    requires CloseInv(s) && Traced(s) && SendStep(c, s, e, s')
    ensures Traced(s')
  {
    if e.StartBeat? {
      AppendTraced(s, s', s'.threads[|s.threads|]);
    } else {
      SendTraced(c, s, e, s');
      TracedMove(s, s', e.i);
    }
  }

  lemma {:induction false} HandleTraced(c: Config, s: State, e: Event, s': State)
    requires CloseInv(s) && Traced(s) && HandleStep(c, s, e, s')
    ensures e.i < |s.threads| == |s'.threads| && s'.threads == s.threads[e.i := s'.threads[e.i]]
    ensures s.threads[e.i].task.Handle? && s'.threads[e.i].task.Handle?
    ensures s'.threads[e.i].task.id == s.threads[e.i].task.id && !s.threads[e.i].sent && !s'.threads[e.i].sent
    ensures ThreadTraced(s.log.received, s'.threads[e.i])
    ensures s'.counters == s.counters && s'.log == s.log && s'.out == s.out && s'.gate == s.gate
    ensures s'.threads[e.i].pc.Finished? ==> s.driver.Reaping?
    ensures s'.driver == s.driver || (s.driver.Handling? && s'.driver.Selecting?)
  {
    hide Admits, QueuePermit, TaskPermit, Phases, Tasks, Linked, UniqueIds, Released, Taken, GivenBack, AfterTask;
    assert ThreadTraced(s.log.received, s.threads[e.i]);
  }

  lemma {:induction false} HandlesTraced(c: Config, s: State, e: Event, s': State)
    requires CloseInv(s) && Traced(s) && HandleStep(c, s, e, s')
    ensures Traced(s')
  {
    HandleTraced(c, s, e, s');
    TracedMove(s, s', e.i);
  }

  /** Completing a channel with an outcome that came from the peer or from closing. */
  lemma {:induction false} CompletedTraced(received: seq<Frame>, ts: seq<Thread>, i: nat, o: Outcome)
    requires forall k :: 0 <= k < |ts| ==> ThreadTraced(received, ts[k])
    requires i < |ts| && ts[i].task.Call? && ts[i].task.slot.None? && FromPeer(received, ts[i].task.id, o)
    ensures var ts' := Completed(ts, i, o);
            && |ts'| == |ts|
            && (forall k :: 0 <= k < |ts| ==> ThreadTraced(received, ts'[k]))
            && (forall k :: 0 <= k < |ts| && ts'[k].task.Call? && ts'[k].task.slot == Some(Failed(SessionClosed))
                            ==> ts[k] == ts'[k] || o == Failed(SessionClosed))
  {
    assert ThreadTraced(received, ts[i]);
  }

  lemma {:induction false} Monotone(received: seq<Frame>, f: Frame, t: Thread)
    requires ThreadTraced(received, t)
    ensures ThreadTraced(received + [f], t)
  {
  }

  lemma {:induction false} ReceiveTraced(s: State, f: Frame, s': State)
    requires CloseInv(s) && Traced(s) && s.driver.Selecting? && s' == AfterReceive(s, f)
    ensures Traced(s')
  {
    forall k | 0 <= k < |s.threads| ensures ThreadTraced(s'.log.received, s.threads[k]) {
      Monotone(s.log.received, f, s.threads[k]);
    }
    if (f.Ack? || f.Nak?) && f.id in s.book.pending {
      assert Unsettled(s.threads, f.id, s.book.pending[f.id]);
    }
  }

  lemma {:induction false} ReadsTraced(s: State, e: Event, s': State)
    requires CloseInv(s) && Traced(s) && ReadStep(s, e, s')
    ensures Traced(s')
  {
    if e.Receive? {
      ReceiveTraced(s, e.frame, s');
    } else if e.Deliver? {
      CompletedTraced(s.log.received, s.threads, s.driver.thread, s.driver.outcome);
    }
  }

  lemma {:induction false} ClosingTraced(s: State, e: Event, s': State)
    requires CloseInv(s) && Traced(s) && CloseStep(s, e, s')
    ensures Traced(s')
  {
    if e.FailPending? {
      assert Unsettled(s.threads, e.id, s.book.draining[e.id]);
      CompletedTraced(s.log.received, s.threads, s.book.draining[e.id], Failed(SessionClosed));
    }
  }

  lemma {:induction false} WritesTraced(s: State, e: Event, s': State)
    requires Traced(s) && WriterStep(s, e, s')
    ensures Traced(s')
  {
    hide Released, Wire, ThreadTraced, FromPeer;
  }

  lemma {:induction false} StepTraced(c: Config, s: State, e: Event, s': State)
    requires CloseInv(s) && Traced(s) && Step(c, s, e, s')
    ensures Traced(s')
  {
    hide CallStep, SendStep, HandleStep, ReadStep, CloseStep, WriteStep, WindUpStep, CloseInv, Traced;
    if CallStep(c, s, e, s') {
      CallsTraced(c, s, e, s');
    } else if SendStep(c, s, e, s') {
      SendsTraced(c, s, e, s');
    } else if HandleStep(c, s, e, s') {
      HandlesTraced(c, s, e, s');
    } else if ReadStep(s, e, s') {
      ReadsTraced(s, e, s');
    } else if CloseStep(s, e, s') {
      ClosingTraced(s, e, s');
    } else {
      WritesTraced(s, e, s');
    }
  }

  // ----- arrival order

  /** A thread that a step adds. */
  predicate Newcomer(frames: nat, t: Thread) {
    && !t.sent && PcFits(t)
    && (t.task.Handle? ==> t.task.arrival == frames + 1 && t.pc.Admitting?)
  }

  /** Threads evolve in place, and at most one is added at the end. */
  ghost predicate Grown(frames: nat, ts: seq<Thread>, ts': seq<Thread>) {
    && |ts| <= |ts'| <= |ts| + 1
    && (forall k :: 0 <= k < |ts| ==> Evolves(ts[k], ts'[k]))
    && (|ts'| == |ts| + 1 ==> Newcomer(frames, ts'[|ts|]))
  }

  lemma {:induction false} ThreadsGrow(c: Config, s: State, e: Event, s': State)
    requires CloseInv(s) && Traced(s) && Step(c, s, e, s')
    ensures Grown(s.counters.frames, s.threads, s'.threads)
  {
    hide CallStep, SendStep, HandleStep, ReadStep, CloseStep, WriteStep, WindUpStep, Step, CloseInv, Traced,
         Evolves, Newcomer;
    LengthGrows(c, s, e, s');
    forall k | 0 <= k < |s.threads| ensures Evolves(s.threads[k], s'.threads[k]) {
      ThreadEvolves(c, s, e, s', k);
    }
  }

  lemma {:induction false} LengthGrows(c: Config, s: State, e: Event, s': State)
    requires CloseInv(s) && Traced(s) && Step(c, s, e, s')
    ensures |s'.threads| == |s.threads|
            || (|s'.threads| == |s.threads| + 1 && Newcomer(s.counters.frames, s'.threads[|s.threads|]))
  {
    hide HandleStep, ReadStep, CloseStep, WriteStep, WindUpStep, Traced, ThreadTraced, Phases, Tasks, Linked,
         UniqueIds, Admits, QueuePermit, TaskPermit;
    if CallStep(c, s, e, s') {
      if !e.Send? {
        CallTraced(c, s, e, s');
      }
    } else if SendStep(c, s, e, s') {
      if !e.StartBeat? {
        SendTraced(c, s, e, s');
      }
    } else if HandleStep(c, s, e, s') {
      HandleTraced(c, s, e, s');
    } else if ReadStep(s, e, s') {
      ReadGrows(s, e, s');
    } else if CloseStep(s, e, s') {
      ClosingGrows(s, e, s');
    } else {
      WriterKeepsThreads(s, e, s');
    }
  }

  lemma {:induction false} ReadGrows(s: State, e: Event, s': State)
    requires ReadStep(s, e, s')
    ensures |s'.threads| == |s.threads|
            || (|s'.threads| == |s.threads| + 1 && Newcomer(s.counters.frames, s'.threads[|s.threads|]))
  {
  }

  lemma {:induction false} ClosingGrows(s: State, e: Event, s': State)
    requires CloseStep(s, e, s')
    ensures |s'.threads| == |s.threads|
  {
  }

  lemma {:induction false} OrderedGrown(received: seq<Frame>, ts: seq<Thread>, ts': seq<Thread>)
    requires Grown(|received|, ts, ts') && Ordered(ts)
    requires forall k :: 0 <= k < |ts| ==> ThreadTraced(received, ts[k])
    ensures Ordered(ts')
  {
    forall j, k | 0 <= j < k < |ts'| && ts'[j].task.Handle? && ts'[k].task.Handle?
      ensures ts'[j].task.arrival < ts'[k].task.arrival
    {
      assert Evolves(ts[j], ts'[j]) && ThreadTraced(received, ts[j]);
      assert k < |ts| ==> Evolves(ts[k], ts'[k]);
    }
  }

  lemma {:induction false} RunTraced(c: Config, run: seq<State>, events: seq<Event>, k: nat)
    requires Run(c, run, events) && k < |run|
    ensures CloseInv(run[k]) && Traced(run[k]) && Ordered(run[k].threads)
  {
    hide Step, CloseInv, Grown;
    RunKeeps(c, run, events, k);
    if k > 0 {
      RunTraced(c, run, events, k - 1);
      assert StepAt(c, run, events, k - 1);
      StepTraced(c, run[k - 1], events[k - 1], run[k]);
      ThreadsGrow(c, run[k - 1], events[k - 1], run[k]);
      OrderedGrown(run[k - 1].log.received, run[k - 1].threads, run[k].threads);
    }
  }

  // ----- after the drain

  lemma {:induction false} DriverDrained(s: State, e: Event, s': State)
    requires DriverStep(s, e, s') && (s.driver.Draining? || s.driver.Done?)
    ensures s'.driver.Draining? || s'.driver.Done?
  {
  }

  lemma {:induction false} WriterNotDriver(s: State, e: Event, s': State)
    requires WriterStep(s, e, s')
    ensures s'.driver == s.driver
  {
  }

  lemma {:induction false} DrainedStays(c: Config, s: State, e: Event, s': State)
    requires CloseInv(s) && Traced(s) && Step(c, s, e, s') && (s.driver.Draining? || s.driver.Done?)
    ensures s'.driver.Draining? || s'.driver.Done?
  {
    hide CallStep, SendStep, HandleStep, DriverStep, WriterStep, CloseInv, Traced;
    if CallStep(c, s, e, s') {
      CallDriver(c, s, e, s');
    } else if SendStep(c, s, e, s') {
      SendDriver(c, s, e, s');
    } else if HandleStep(c, s, e, s') {
      HandleTraced(c, s, e, s');
    } else if DriverStep(s, e, s') {
      DriverDrained(s, e, s');
    } else {
      WriterNotDriver(s, e, s');
    }
  }

  lemma {:induction false} CallDriver(c: Config, s: State, e: Event, s': State)
    requires CallStep(c, s, e, s')
    ensures s'.driver == s.driver
  {
    hide Admits;
  }

  lemma {:induction false} SendDriver(c: Config, s: State, e: Event, s': State)
    requires SendStep(c, s, e, s')
    ensures s'.driver == s.driver || (s.driver.Handling? && s'.driver.Selecting?)
  {
    hide Admits, QueuePermit;
  }

  /** No exchange is registered once the pending ones were drained, whatever the interleaving. */
  lemma {:induction false} NothingPendsAfterDrain(c: Config, run: seq<State>, events: seq<Event>, j: nat, k: nat)
    requires Run(c, run, events) && j <= k < |events| && events[j].Drain?
    ensures run[k + 1].driver.Draining? || run[k + 1].driver.Done?
    ensures run[k + 1].book.pending == map[] && !run[k + 1].gate.open && run[k + 1].out.writer.Gone?
  {
    hide Step, Traced;
    RunKeeps(c, run, events, k + 1);
    assert StepAt(c, run, events, k);
    if j < k {
      NothingPendsAfterDrain(c, run, events, j, k - 1);
      RunTraced(c, run, events, k);
      DrainedStays(c, run[k], events[k], run[k + 1]);
    } else {
      DrainsOnce(c, run[k], events[k], run[k + 1]);
    }
  }

  lemma {:induction false} DrainsOnce(c: Config, s: State, e: Event, s': State)
    requires Step(c, s, e, s') && e.Drain?
    ensures s'.driver.Draining?
  {
  }

  // ----- where an outcome comes from

  /** The origin that errors carry. */
  datatype Origin = Other | LocalTransport | PeerNak

  /** The origin of the error an exchange ends with; none when it succeeds or nobody waits any more. */
  function OriginOf(o: Outcome): Option<Origin> {
    match o
    case Acked(_, _) => None
    case Refused(_) => Some(PeerNak)
    case Failed(TooLarge) => Some(Other)
    case Failed(Abandoned) => None
    case Failed(_) => Some(LocalTransport)
  }

  /** The origin is true to what happened: success and peer errors come from a frame received for that id,
      and never count as local transport; the closed outcome is given only once `finish_close` has
      drained the pending entries, and always counts as local transport, as does a timeout. */
  lemma {:induction false} OriginIsTrue(c: Config, run: seq<State>, events: seq<Event>, k: nat, i: nat)
    requires Run(c, run, events) && k < |run| && i < |run[k].threads|
    requires run[k].threads[i].task.Call? && run[k].threads[i].pc.Ended?
    ensures var s, o, id := run[k], run[k].threads[i].pc.outcome, run[k].threads[i].task.id;
            && (o.Acked? ==> 1 <= o.arrival <= |s.log.received| && s.log.received[o.arrival - 1] == Ack(id, o.result))
            && (OriginOf(o) == Some(PeerNak) ==> o.Refused? && Nak(id, o.problem) in s.log.received)
            && (o in {Failed(SessionClosed), Failed(TimedOut)} ==> OriginOf(o) == Some(LocalTransport))
            && (o == Failed(SessionClosed) ==> s.driver.Draining? || s.driver.Done?)
  {
    hide Run, CloseInv, Ordered;
    RunTraced(c, run, events, k);
    assert ThreadTraced(run[k].log.received, run[k].threads[i]);
  }
}
