/** No frame is lost or doubled inside a session, and every message received is accounted for. */
module SessionConservation {
  import opened Texts
  import opened Frames
  import opened Resources
  import opened Sessions
  import opened SessionClose
  import opened SessionSettlement
  import opened SessionHistory
  import opened SessionLanes
  import opened SessionOrigins

  /** The messages with an id, or the replies to it. */
  datatype Tag = MessageOf(id: Id) | ReplyOf(id: Id)

  predicate Tagged(f: Frame, tag: Tag) {
    match tag
    case MessageOf(id) => f.Message? && f.id == id
    case ReplyOf(id) => (f.Ack? || f.Nak?) && f.id == id
  }

  function One(b: bool): nat {
    if b then 1 else 0
  }

  function Count(fs: seq<Frame>, tag: Tag): nat {
    if fs == [] then 0 else Count(fs[..|fs| - 1], tag) + One(Tagged(fs[|fs| - 1], tag))
  }

  function CountItems(items: seq<Item>, tag: Tag): nat {
    if items == [] then 0 else One(Tagged(items[0].frame, tag)) + CountItems(items[1..], tag)
  }

  /** Threads whose frame has been queued. */
  function CountSent(ts: seq<Thread>, tag: Tag): nat {
    if ts == [] then 0 else CountSent(ts[..|ts| - 1], tag) + SentOne(ts[|ts| - 1], tag)
  }

  function SentOne(t: Thread, tag: Tag): nat {
    One(t.sent && Tagged(Outgoing(t), tag))
  }

  /** A frame in the hands of the writer that is not on the wire yet. */
  function CountWriter(out: Output, tag: Tag): nat {
    One(out.writer.Picked? && Tagged(out.writer.item.frame, tag))
    + One(out.sink.Some? && Tagged(out.sink.value.frame, tag))
  }

  lemma {:induction false} CountAppend(fs: seq<Frame>, f: Frame, tag: Tag)
    ensures Count(fs + [f], tag) == Count(fs, tag) + One(Tagged(f, tag))
  {
    assert (fs + [f])[..|fs|] == fs;
  }

  lemma {:induction false} ItemsAppend(items: seq<Item>, item: Item, tag: Tag)
    ensures CountItems(items + [item], tag) == CountItems(items, tag) + One(Tagged(item.frame, tag))
  {
    if items != [] {
      ItemsAppend(items[1..], item, tag);
      assert (items + [item])[1..] == items[1..] + [item];
    }
  }

  lemma {:induction false} SentAppend(ts: seq<Thread>, t: Thread, tag: Tag)
    ensures CountSent(ts + [t], tag) == CountSent(ts, tag) + SentOne(t, tag)
  {
    assert (ts + [t])[..|ts|] == ts;
  }

  lemma {:induction false} SentUpdate(ts: seq<Thread>, i: nat, t: Thread, tag: Tag)
    requires i < |ts|
    ensures CountSent(ts[i := t], tag) + SentOne(ts[i], tag) == CountSent(ts, tag) + SentOne(t, tag)
    decreases |ts|
  {
    var n := |ts| - 1;
    if i == n {
      assert ts[i := t][..n] == ts[..n];
    } else {
      SentUpdate(ts[..n], i, t, tag);
      assert ts[i := t][..n] == ts[..n][i := t];
    }
  }

  /** Every queued frame is in one place: in a queue, with the writer, on the wire, or dropped. */
  ghost predicate Placed(sent: nat, out: Output, log: Log, tag: Tag) {
    sent == CountItems(out.data, tag) + CountItems(out.control, tag) + CountWriter(out, tag)
            + Count(log.wire, tag) + Count(log.dropped, tag)
  }

  ghost predicate Queued(sent: nat, log: Log, tag: Tag) {
    sent == Count(log.queuedData, tag) + Count(log.queuedControl, tag)
  }

  ghost predicate Conserved(s: State, tag: Tag) {
    && Placed(CountSent(s.threads, tag), s.out, s.log, tag)
    && Queued(CountSent(s.threads, tag), s.log, tag)
  }

  // ----- pushes

  lemma {:induction false} PushCounts(s: State, s': State, i: nat, tag: Tag)
    requires i < |s.threads| == |s'.threads| && s'.threads == s.threads[i := s'.threads[i]]
    requires !s.threads[i].sent && s'.threads[i].sent && Outgoing(s'.threads[i]) == Outgoing(s.threads[i])
    ensures CountSent(s'.threads, tag) == CountSent(s.threads, tag) + One(Tagged(Outgoing(s.threads[i]), tag))
  {
    hide Outgoing, Tagged, CountSent;
    SentUpdate(s.threads, i, s'.threads[i], tag);
  }

  lemma {:induction false} PushedOnce(c: Config, s: State, e: Event, s': State)
    requires SendStep(c, s, e, s') && Pushes(c, s, e) && PcFits(s.threads[e.i])
    ensures !s.threads[e.i].sent
  {
    hide AfterPush, HasRoom;
  }

  lemma {:induction false} PushPlaces(c: Config, s: State, e: Event, s': State, tag: Tag)
    requires SendStep(c, s, e, s') && Pushes(c, s, e) && PcFits(s.threads[e.i]) && Conserved(s, tag)
    ensures Conserved(s', tag)
  {
    hide SendStep, HasRoom, Outgoing, QueuePermit, Tagged, CountSent, CountItems, Count, CountWriter;
    PushAppends(c, s, e, s');
    PushedOnce(c, s, e, s');
    PushCounts(s, s', e.i, tag);
    var t := s.threads[e.i];
    var item := Item(Outgoing(t), QueuePermit(t), e.i);
    if t.task.Call? {
      ItemsAppend(s.out.data, item, tag);
      CountAppend(s.log.queuedData, item.frame, tag);
    } else {
      ItemsAppend(s.out.control, item, tag);
      CountAppend(s.log.queuedControl, item.frame, tag);
    }
    SameWriter(s.out, s'.out, tag);
  }

  lemma {:induction false} SameWriter(out: Output, out': Output, tag: Tag)
    requires out'.writer == out.writer && out'.sink == out.sink
    ensures CountWriter(out', tag) == CountWriter(out, tag)
  {
  }

  // ----- the writer

  lemma {:induction false} StartPlaces(s: State, s': State, sent: nat, tag: Tag)
    requires s.out.writer.Picked? && s' == AfterStartWrite(s)
    requires Flushed(s.log, s.out) && Placed(sent, s.out, s.log, tag)
    ensures Placed(sent, s'.out, s'.log, tag)
  {
    hide Wire, FramePermit, CountItems, Count, Tagged;
    CountAppend(s.log.dropped, s.out.writer.item.frame, tag);
  }

  lemma {:induction false} FlushPlaces(s: State, s': State, sent: nat, tag: Tag)
    requires s.out.sink.Some? && s' == AfterFlush(s) && Placed(sent, s.out, s.log, tag)
    ensures Placed(sent, s'.out, s'.log, tag)
  {
    hide Wire, FramePermit, CountItems, Count, Tagged;
    CountAppend(s.log.wire, s.out.sink.value.frame, tag);
  }

  lemma {:induction false} WritePlaces(s: State, e: Event, s': State, sent: nat, tag: Tag)
    requires WriteStep(s, e, s') && Flushed(s.log, s.out) && Placed(sent, s.out, s.log, tag)
    ensures Placed(sent, s'.out, s'.log, tag)
  {
    hide AfterStartWrite, AfterFlush, Count, Tagged;
    if e.StartWrite? {
      StartPlaces(s, s', sent, tag);
    } else if e.Flush? {
      FlushPlaces(s, s', sent, tag);
    }
  }

  lemma {:induction false} WindUpPlaces(s: State, e: Event, s': State, sent: nat, tag: Tag)
    requires WindUpStep(s, e, s') && Placed(sent, s.out, s.log, tag)
    ensures Placed(sent, s'.out, s'.log, tag)
  {
    hide Wire, FramePermit, Count, Tagged;
    if e.AbortWriter? || e.DropSink? {
      if s.out.sink.Some? {
        CountAppend(s.log.dropped, s.out.sink.value.frame, tag);
      }
    } else if e.DropControl? {
      CountAppend(s.log.dropped, s.out.control[0].frame, tag);
    } else if e.DropData? {
      CountAppend(s.log.dropped, s.out.data[0].frame, tag);
    }
  }

  lemma {:induction false} WriterQueuesNothing(s: State, e: Event, s': State)
    requires WriterStep(s, e, s')
    ensures s'.log.queuedData == s.log.queuedData && s'.log.queuedControl == s.log.queuedControl
    ensures s'.log.received == s.log.received
  {
    hide Wire, FramePermit, Counts.Refund, Released;
  }

  // ----- everything else

  /** No thread queues its frame in this step. */
  lemma {:induction false} QuietMove(ts: seq<Thread>, ts': seq<Thread>, i: nat, tag: Tag)
    requires i < |ts| == |ts'| && ts' == ts[i := ts'[i]] && SentOne(ts'[i], tag) == SentOne(ts[i], tag)
    ensures CountSent(ts', tag) == CountSent(ts, tag)
  {
    SentUpdate(ts, i, ts'[i], tag);
  }

  lemma {:induction false} QuietCompletion(ts: seq<Thread>, i: nat, o: Outcome, tag: Tag)
    ensures CountSent(Completed(ts, i, o), tag) == CountSent(ts, tag)
  {
    if i < |ts| && ts[i].task.Call? && !ts[i].pc.Ended? {
      SentUpdate(ts, i, ts[i].(task := ts[i].task.(slot := Some(o))), tag);
    }
  }

  lemma {:induction false} QuietCall(c: Config, s: State, e: Event, s': State, tag: Tag)
    requires CloseInv(s) && Traced(s) && CallStep(c, s, e, s')
    ensures CountSent(s'.threads, tag) == CountSent(s.threads, tag)
  {
    hide Admits, QueuePermit, TaskPermit, CloseInv, Traced, ThreadTraced;
    if e.Send? {
      SentAppend(s.threads, s'.threads[|s.threads|], tag);
    } else {
      CallTraced(c, s, e, s');
      QuietMove(s.threads, s'.threads, e.i, tag);
    }
  }

  lemma {:induction false} QuietSend(c: Config, s: State, e: Event, s': State, tag: Tag)
    requires CloseInv(s) && Traced(s) && SendStep(c, s, e, s') && !Pushes(c, s, e)
    ensures CountSent(s'.threads, tag) == CountSent(s.threads, tag)
  {
    hide Admits, QueuePermit, TaskPermit, Phases, Tasks, Linked, UniqueIds, Traced, ThreadTraced;
    if e.StartBeat? {
      SentAppend(s.threads, s'.threads[|s.threads|], tag);
    } else {
      SendTraced(c, s, e, s');
      assert PcFits(s.threads[e.i]);
      assert !s.threads[e.i].sent && !s'.threads[e.i].sent;
      QuietMove(s.threads, s'.threads, e.i, tag);
    }
  }

  lemma {:induction false} QuietRead(s: State, e: Event, s': State, tag: Tag)
    requires ReadStep(s, e, s')
    ensures CountSent(s'.threads, tag) == CountSent(s.threads, tag)
  {
    if e.Receive? {
      if e.frame.Message? {
        SentAppend(s.threads, s'.threads[|s.threads|], tag);
      }
    } else if e.Deliver? {
      QuietCompletion(s.threads, s.driver.thread, s.driver.outcome, tag);
    }
  }

  lemma {:induction false} QuietClose(s: State, e: Event, s': State, tag: Tag)
    requires CloseStep(s, e, s')
    ensures CountSent(s'.threads, tag) == CountSent(s.threads, tag)
  {
    if e.FailPending? {
      QuietCompletion(s.threads, s.book.draining[e.id], Failed(SessionClosed), tag);
    }
  }

  /** Apart from pushes, only the writer moves frames. */
  lemma {:induction false} QuietThreads(c: Config, s: State, e: Event, s': State, tag: Tag)
    requires CloseInv(s) && Traced(s)
    requires CallStep(c, s, e, s') || HandleStep(c, s, e, s') || (SendStep(c, s, e, s') && !Pushes(c, s, e))
    ensures CountSent(s'.threads, tag) == CountSent(s.threads, tag) && SameLanes(s.out, s.log, s'.out, s'.log)
  {
    hide Traced, CloseInv, SameLanes;
    if CallStep(c, s, e, s') {
      QuietCall(c, s, e, s', tag);
      CallLeavesLanes(c, s, e, s');
    } else if HandleStep(c, s, e, s') {
      HandleTraced(c, s, e, s');
      QuietMove(s.threads, s'.threads, e.i, tag);
      CallLeavesLanes(c, s, e, s');
    } else {
      QuietSend(c, s, e, s', tag);
      SendLeavesLanes(c, s, e, s');
    }
  }

  lemma {:induction false} QuietDriver(s: State, e: Event, s': State, tag: Tag)
    requires DriverStep(s, e, s')
    ensures CountSent(s'.threads, tag) == CountSent(s.threads, tag) && SameLanes(s.out, s.log, s'.out, s'.log)
  {
    if ReadStep(s, e, s') {
      QuietRead(s, e, s', tag);
      ReadLeavesLanes(s, e, s');
    } else {
      QuietClose(s, e, s', tag);
      CloseLeavesLanes(s, e, s');
    }
  }

  lemma {:induction false} QuietConserves(s: State, s': State, tag: Tag)
    requires CountSent(s'.threads, tag) == CountSent(s.threads, tag) && SameLanes(s.out, s.log, s'.out, s'.log)
    requires Conserved(s, tag)
    ensures Conserved(s', tag)
  {
  }

  lemma {:induction false} StepConserves(c: Config, s: State, e: Event, s': State, tag: Tag)
    requires CloseInv(s) && Traced(s) && Flushed(s.log, s.out) && Step(c, s, e, s') && Conserved(s, tag)
    ensures Conserved(s', tag)
  {
    hide CallStep, HandleStep, ReadStep, CloseStep, WriteStep, WindUpStep, SameLanes;
    if WriterStep(s, e, s') {
      WriterConserves(s, e, s', tag);
    } else if DriverStep(s, e, s') {
      QuietDriver(s, e, s', tag);
      QuietConserves(s, s', tag);
    } else if SendStep(c, s, e, s') && Pushes(c, s, e) {
      assert PcFits(s.threads[e.i]);
      PushPlaces(c, s, e, s', tag);
    } else {
      QuietThreads(c, s, e, s', tag);
      QuietConserves(s, s', tag);
    }
  }

  lemma {:induction false} WriterConserves(s: State, e: Event, s': State, tag: Tag)
    requires WriterStep(s, e, s') && Flushed(s.log, s.out) && Conserved(s, tag)
    ensures Conserved(s', tag)
  {
    hide WriteStep, WindUpStep, Placed, CountSent, Count;
    WriterKeepsThreads(s, e, s');
    WriterQueuesNothing(s, e, s');
    if WriteStep(s, e, s') {
      WritePlaces(s, e, s', CountSent(s.threads, tag), tag);
    } else {
      WindUpPlaces(s, e, s', CountSent(s.threads, tag), tag);
    }
  }

  /** In every state of a run, each frame queued so far is in exactly one place. */
  lemma {:induction false} RunConserves(c: Config, run: seq<State>, events: seq<Event>, k: nat, tag: Tag)
    requires Run(c, run, events) && k < |run|
    ensures Conserved(run[k], tag)
  {
    hide Step, CloseInv, Traced;
    if k > 0 {
      RunConserves(c, run, events, k - 1, tag);
      RunTraced(c, run, events, k - 1);
      RunKeepsLanes(c, run, events, k - 1);
      assert StepAt(c, run, events, k - 1);
      StepConserves(c, run[k - 1], events[k - 1], run[k], tag);
    }
  }
}
