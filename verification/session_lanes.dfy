/** The two outgoing lanes and the writer: what is handed to the sink, in which order, and who queued it. */
module SessionLanes {
  import opened Texts
  import opened Frames
  import opened Resources
  import opened Sessions
  import opened SessionClose
  import opened SessionSettlement
  import opened SessionHistory

  /** The data frames, or the control frames, of a sequence, in order. */
  function Lane(fs: seq<Frame>, data: bool): seq<Frame> {
    if fs == [] then []
    else Lane(fs[..|fs| - 1], data) + if fs[|fs| - 1].Message? == data then [fs[|fs| - 1]] else []
  }

  function FramesOf(items: seq<Item>): (fs: seq<Frame>)
    ensures |fs| == |items|
  {
    if items == [] then [] else [items[0].frame] + FramesOf(items[1..])
  }

  lemma {:induction false} LaneAppend(fs: seq<Frame>, f: Frame, data: bool)
    ensures Lane(fs + [f], data) == Lane(fs, data) + if f.Message? == data then [f] else []
  {
    assert (fs + [f])[..|fs|] == fs;
  }

  lemma {:induction false} FramesAppend(items: seq<Item>, item: Item)
    ensures FramesOf(items + [item]) == FramesOf(items) + [item.frame]
  {
    if items != [] {
      FramesAppend(items[1..], item);
      assert (items + [item])[1..] == items[1..] + [item];
    }
  }

  lemma {:induction false} LanePrefix(fs: seq<Frame>, gs: seq<Frame>, data: bool)
    requires fs <= gs
    ensures Lane(fs, data) <= Lane(gs, data)
    decreases |gs|
  {
    if |fs| < |gs| {
      LanePrefix(fs, gs[..|gs| - 1], data);
    } else {
      assert fs == gs;
    }
  }

  /** The writer has finished with the queues and destroys what is left in them. */
  predicate Destroying(w: Writer) {
    w.Dropping? || w.Gone?
  }

  /** What was picked from a lane, then what is still queued there, is all that was ever queued. */
  ghost predicate InOrder(queued: seq<Frame>, picked: seq<Frame>, items: seq<Item>, w: Writer, data: bool) {
    && Lane(picked, data) <= queued
    && (!Destroying(w) ==> queued == Lane(picked, data) + FramesOf(items))
    && (forall k :: 0 <= k < |items| ==> items[k].frame.Message? == data)
    && (forall k :: 0 <= k < |queued| ==> queued[k].Message? == data)
  }

  /** Everything picked has been flushed, except perhaps the last frame. */
  predicate Flushed(log: Log, out: Output) {
    && log.wire <= log.picked && |log.picked| <= |log.wire| + 1
    && |log.senders| == |log.wire|
    && (out.writer.Polling? || out.writer.ControlNext? || out.writer.ControlEmpty? ==>
          log.picked == log.wire && out.sink.None?)
    && (out.writer.Picked? ==> log.picked == log.wire + [out.writer.item.frame] && out.sink.None?)
    && (out.sink.Some? ==> log.picked == log.wire + [out.sink.value.frame])
    && (out.writer.Writing? && out.sink.None? ==> log.picked == log.wire)
  }

  ghost predicate LanesInv(out: Output, log: Log) {
    && InOrder(log.queuedData, log.picked, out.data, out.writer, true)
    && InOrder(log.queuedControl, log.picked, out.control, out.writer, false)
    && Flushed(log, out)
  }

  // ----- which steps concern the lanes

  predicate SameLanes(out: Output, log: Log, out': Output, log': Log) {
    out'.(stop := out.stop) == out && log'.(received := log.received) == log
  }

  lemma {:induction false} ExchangeLeavesLanes(c: Config, s: State, e: Event, s': State)
    requires CallStep(c, s, e, s')
    ensures SameLanes(s.out, s.log, s'.out, s'.log)
  {
    hide Admits, Released, Taken, GivenBack;
  }

  lemma {:induction false} HandleLeavesLanes(c: Config, s: State, e: Event, s': State)
    requires HandleStep(c, s, e, s')
    ensures SameLanes(s.out, s.log, s'.out, s'.log)
  {
    hide Admits, TaskPermit, Released, Taken, GivenBack, AfterTask;
  }

  lemma {:induction false} CallLeavesLanes(c: Config, s: State, e: Event, s': State)
    requires CallStep(c, s, e, s') || HandleStep(c, s, e, s')
    ensures SameLanes(s.out, s.log, s'.out, s'.log)
  {
    hide CallStep, HandleStep, SameLanes;
    if CallStep(c, s, e, s') {
      ExchangeLeavesLanes(c, s, e, s');
    } else {
      HandleLeavesLanes(c, s, e, s');
    }
  }

  lemma {:induction false} ReadLeavesLanes(s: State, e: Event, s': State)
    requires ReadStep(s, e, s')
    ensures SameLanes(s.out, s.log, s'.out, s'.log)
  {
  }

  lemma {:induction false} CloseLeavesLanes(s: State, e: Event, s': State)
    requires CloseStep(s, e, s')
    ensures SameLanes(s.out, s.log, s'.out, s'.log)
  {
  }

  /** The push that this step performs, if any. */
  predicate Pushes(c: Config, s: State, e: Event) {
    e.Push? && e.i < |s.threads| && HasRoom(c, s.out, s.threads[e.i])
  }

  lemma {:induction false} SendLeavesLanes(c: Config, s: State, e: Event, s': State)
    requires SendStep(c, s, e, s') && !Pushes(c, s, e)
    ensures SameLanes(s.out, s.log, s'.out, s'.log)
  {
    hide Admits, QueuePermit, TaskPermit;
  }

  /** A push appends one item to one lane. */
  lemma {:induction false} PushAppends(c: Config, s: State, e: Event, s': State)
    requires SendStep(c, s, e, s') && Pushes(c, s, e)
    ensures var t := s.threads[e.i];
            var item := Item(Outgoing(t), QueuePermit(t), e.i);
            && !Destroying(s.out.writer)
            && (t.task.Call? ==>
                  && s'.out == s.out.(data := s.out.data + [item])
                  && s'.log == s.log.(queuedData := s.log.queuedData + [item.frame]))
            && (!t.task.Call? ==>
                  && s'.out == s.out.(control := s.out.control + [item])
                  && s'.log == s.log.(queuedControl := s.log.queuedControl + [item.frame]))
    ensures |s'.threads| == |s.threads| && s'.threads == s.threads[e.i := s'.threads[e.i]]
    ensures s'.threads[e.i].sent && Outgoing(s'.threads[e.i]) == Outgoing(s.threads[e.i])
    ensures QueuePermit(s'.threads[e.i]) == QueuePermit(s.threads[e.i])
  {
  }

  /** A reply is never a message, so that a message is queued as data and nothing else is. */
  lemma {:induction false} PushKeepsLanes(c: Config, s: State, e: Event, s': State)
    requires Traced(s) && SendStep(c, s, e, s') && Pushes(c, s, e) && LanesInv(s.out, s.log)
    ensures LanesInv(s'.out, s'.log)
  {
    hide Lane, QueuePermit, SendStep;
    PushAppends(c, s, e, s');
    var t := s.threads[e.i];
    assert ThreadTraced(s.log.received, t);
    var item := Item(Outgoing(t), QueuePermit(t), e.i);
    if t.task.Call? {
      FramesAppend(s.out.data, item);
    } else {
      FramesAppend(s.out.control, item);
    }
  }

  /** Picking the oldest item of one lane leaves the other lane alone. */
  lemma {:induction false} PickedInOrder(queued: seq<Frame>, picked: seq<Frame>, items: seq<Item>, w: Writer,
                                         data: bool, item: Item, w': Writer)
    requires InOrder(queued, picked, items, w, data) && !Destroying(w)
    requires item.frame.Message? == data ==> items != [] && items[0] == item
    ensures InOrder(queued, picked + [item.frame], if item.frame.Message? == data then items[1..] else items, w', data)
  {
    LaneAppend(picked, item.frame, data);
  }

  lemma {:induction false} PickKeepsLanes(s: State, e: Event, s': State)
    requires LanesInv(s.out, s.log) && WriteStep(s, e, s') && (e.PickControl? || e.PickData?)
    ensures LanesInv(s'.out, s'.log)
  {
    var item := s'.out.writer.item;
    PickedInOrder(s.log.queuedData, s.log.picked, s.out.data, s.out.writer, true, item, s'.out.writer);
    PickedInOrder(s.log.queuedControl, s.log.picked, s.out.control, s.out.writer, false, item, s'.out.writer);
  }

  lemma {:induction false} WriteKeepsLanes(s: State, e: Event, s': State)
    requires LanesInv(s.out, s.log) && WriteStep(s, e, s')
    ensures LanesInv(s'.out, s'.log)
  {
    hide Lane, FramesOf, Counts.Refund;
    if e.PickControl? || e.PickData? {
      PickKeepsLanes(s, e, s');
    }
  }

  lemma {:induction false} WindUpKeepsLanes(s: State, e: Event, s': State)
    requires LanesInv(s.out, s.log) && WindUpStep(s, e, s')
    ensures LanesInv(s'.out, s'.log)
  {
    hide Lane, FramesOf, Counts.Refund;
  }

  lemma {:induction false} StepKeepsLanes(c: Config, s: State, e: Event, s': State)
    requires Traced(s) && Step(c, s, e, s') && LanesInv(s.out, s.log)
    ensures LanesInv(s'.out, s'.log)
  {
    hide CallStep, SendStep, HandleStep, ReadStep, CloseStep, WriteStep, WindUpStep, Traced, InOrder;
    if CallStep(c, s, e, s') || HandleStep(c, s, e, s') {
      CallLeavesLanes(c, s, e, s');
    } else if SendStep(c, s, e, s') {
      if Pushes(c, s, e) {
        PushKeepsLanes(c, s, e, s');
      } else {
        SendLeavesLanes(c, s, e, s');
      }
    } else if ReadStep(s, e, s') {
      ReadLeavesLanes(s, e, s');
    } else if CloseStep(s, e, s') {
      CloseLeavesLanes(s, e, s');
    } else if WriteStep(s, e, s') {
      WriteKeepsLanes(s, e, s');
    } else {
      WindUpKeepsLanes(s, e, s');
    }
  }

  lemma {:induction false} RunKeepsLanes(c: Config, run: seq<State>, events: seq<Event>, k: nat)
    requires Run(c, run, events) && k < |run|
    ensures LanesInv(run[k].out, run[k].log)
  {
    hide Step, Traced;
    if k > 0 {
      RunKeepsLanes(c, run, events, k - 1);
      RunTraced(c, run, events, k - 1);
      assert StepAt(c, run, events, k - 1);
      StepKeepsLanes(c, run[k - 1], events[k - 1], run[k]);
    }
  }

  /** In each lane, the frames written so far are the first of those queued, in the same order. */
  lemma {:induction false} WrittenInOrder(c: Config, run: seq<State>, events: seq<Event>, k: nat, data: bool)
    requires Run(c, run, events) && k < |run|
    ensures var log := run[k].log;
            Lane(log.wire, data) <= Lane(log.picked, data) <= if data then log.queuedData else log.queuedControl
  {
    RunKeepsLanes(c, run, events, k);
    LanePrefix(run[k].log.wire, run[k].log.picked, data);
  }

  // ----- control before data

  function DataPicked(s: State): nat {
    |Lane(s.log.picked, true)|
  }

  function ControlPicked(s: State): nat {
    |Lane(s.log.picked, false)|
  }

  /** The writer has found the control queue empty and turns to the data queue. */
  function Gap(s: State): nat {
    if s.out.writer.ControlEmpty? then 1 else 0
  }

  lemma {:induction false} WriterOvertakes(s: State, e: Event, s': State)
    requires LanesInv(s.out, s.log) && WriterStep(s, e, s')
    ensures s'.log.queuedControl == s.log.queuedControl
    ensures ControlPicked(s) <= ControlPicked(s')
    ensures |s.log.queuedControl| > ControlPicked(s) ==> DataPicked(s') + Gap(s') <= DataPicked(s) + Gap(s)
  {
    hide Released, Wire, FramePermit;
    if e.PickControl? || e.PickData? {
      LaneAppend(s.log.picked, s'.out.writer.item.frame, true);
      LaneAppend(s.log.picked, s'.out.writer.item.frame, false);
    }
  }

  lemma {:induction false} OthersDoNotOvertake(c: Config, s: State, e: Event, s': State)
    requires Step(c, s, e, s') && !WriterStep(s, e, s')
    ensures |s.log.queuedControl| <= |s'.log.queuedControl|
    ensures s'.log.picked == s.log.picked && s'.out.writer == s.out.writer
  {
    hide CallStep, SendStep, HandleStep, ReadStep, CloseStep, WriteStep, WindUpStep;
    if CallStep(c, s, e, s') || HandleStep(c, s, e, s') {
      CallLeavesLanes(c, s, e, s');
    } else if SendStep(c, s, e, s') {
      if Pushes(c, s, e) {
        PushAppends(c, s, e, s');
      } else {
        SendLeavesLanes(c, s, e, s');
      }
    } else if ReadStep(s, e, s') {
      ReadLeavesLanes(s, e, s');
    } else {
      CloseLeavesLanes(s, e, s');
    }
  }

  /** While a control frame, the `n`-th ever queued, waits to be picked, the writer picks at most one
      data frame, and that one only if it was looking at the data queue when the wait began. */
  lemma {:induction false} ControlOvertaken(c: Config, run: seq<State>, events: seq<Event>, j: nat, k: nat, n: nat)
    requires Run(c, run, events) && j <= k < |run|
    requires n < |run[j].log.queuedControl| && ControlPicked(run[k]) <= n
    ensures n < |run[k].log.queuedControl| && ControlPicked(run[j]) <= n
    ensures DataPicked(run[k]) + Gap(run[k]) <= DataPicked(run[j]) + Gap(run[j])
    decreases k
  {
    hide Step, LanesInv;
    if j < k {
      var s, e, s' := run[k - 1], events[k - 1], run[k];
      RunKeepsLanes(c, run, events, k - 1);
      assert StepAt(c, run, events, k - 1);
      if WriterStep(s, e, s') {
        WriterOvertakes(s, e, s');
      } else {
        OthersDoNotOvertake(c, s, e, s');
      }
      ControlOvertaken(c, run, events, j, k - 1, n);
      if WriterStep(s, e, s') {
        WriterOvertakes(s, e, s');
      }
    }
  }

  /** Without a step of the writer, its position and what it has picked stay. */
  lemma {:induction false} WriterRests(c: Config, run: seq<State>, events: seq<Event>, j: nat, m: nat)
    requires Run(c, run, events) && j <= m < |run|
    requires forall l :: j <= l < m ==> !WriterStep(run[l], events[l], run[l + 1])
    ensures run[m].out.writer == run[j].out.writer && run[m].log.picked == run[j].log.picked
  {
    hide Step, WriterStep;
    if j < m {
      WriterRests(c, run, events, j, m - 1);
      assert StepAt(c, run, events, m - 1);
      OthersDoNotOvertake(c, run[m - 1], events[m - 1], run[m]);
    }
  }

  lemma {:induction false} PickedGrows(c: Config, run: seq<State>, events: seq<Event>, j: nat, k: nat)
    requires Run(c, run, events) && j <= k < |run|
    ensures run[j].log.picked <= run[k].log.picked
  {
    hide Step, WriterStep;
    if j < k {
      PickedGrows(c, run, events, j, k - 1);
      assert StepAt(c, run, events, k - 1);
      if WriterStep(run[k - 1], events[k - 1], run[k]) {
        WriterPicks(run[k - 1], events[k - 1], run[k]);
      } else {
        OthersDoNotOvertake(c, run[k - 1], events[k - 1], run[k]);
      }
    }
  }

  lemma {:induction false} WriterPicks(s: State, e: Event, s': State)
    requires WriterStep(s, e, s')
    ensures s.log.picked <= s'.log.picked
  {
    hide Counts.Refund;
  }

  /** A writer that has found the control queue empty has no choice: it takes a data frame if there is one,
      even when a control frame has been queued since. */
  lemma {:induction false} GapDecides(s: State, e: Event, s': State)
    requires s.out.writer.ControlEmpty? && WriterStep(s, e, s') && LanesInv(s.out, s.log)
    ensures Gap(s') == 0 && DataPicked(s') == DataPicked(s) + if s.out.data != [] then 1 else 0
  {
    hide Released, Wire, FramePermit, AfterStartWrite, AfterFlush;
    if s.out.data != [] {
      LaneAppend(s.log.picked, s.out.data[0].frame, true);
    }
  }

  /** Exactly when a control frame is overtaken. It is the `n`-th ever queued and waits from state `j` to
      state `k`; the writer's first step of that time is step `m`. Then exactly one data frame is picked
      before it if the writer stood between the two queues when the wait began and finds a data frame, and
      none in every other case. */
  lemma {:induction false} OvertakenExactly(c: Config, run: seq<State>, events: seq<Event>,
                                            j: nat, m: nat, k: nat, n: nat)
    requires Run(c, run, events) && j <= m < k < |run|
    requires n < |run[j].log.queuedControl| && ControlPicked(run[k]) <= n
    requires WriterStep(run[m], events[m], run[m + 1])
    requires forall l :: j <= l < m ==> !WriterStep(run[l], events[l], run[l + 1])
    ensures DataPicked(run[k])
            == DataPicked(run[j]) + if run[j].out.writer.ControlEmpty? && run[m].out.data != [] then 1 else 0
  {
    hide Step, WriterStep, LanesInv;
    WriterRests(c, run, events, j, m);
    PickedGrows(c, run, events, j, k);
    LanePrefix(run[j].log.picked, run[k].log.picked, true);
    if run[j].out.writer.ControlEmpty? {
      RunKeepsLanes(c, run, events, m);
      GapDecides(run[m], events[m], run[m + 1]);
      PickedGrows(c, run, events, m + 1, k);
      LanePrefix(run[m + 1].log.picked, run[k].log.picked, true);
      ControlOvertaken(c, run, events, j, k, n);
      StillWaiting(c, run, events, j, m + 1, k, n);
      ControlOvertaken(c, run, events, m + 1, k, n);
    } else {
      ControlOvertaken(c, run, events, j, k, n);
    }
  }

  lemma {:induction false} StillWaiting(c: Config, run: seq<State>, events: seq<Event>, j: nat, m: nat, k: nat, n: nat)
    requires Run(c, run, events) && j <= m <= k < |run|
    requires n < |run[j].log.queuedControl| && ControlPicked(run[k]) <= n
    ensures n < |run[m].log.queuedControl|
  {
    hide Step;
    PickedGrows(c, run, events, m, k);
    LanePrefix(run[m].log.picked, run[k].log.picked, false);
    ControlOvertaken(c, run, events, j, m, n);
  }
}
