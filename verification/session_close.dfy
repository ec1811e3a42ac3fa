/** Closing a session: what every step keeps, and why no exchange can wait forever. */
module SessionClose {
  import opened Texts
  import opened Frames
  import opened Resources
  import opened Sessions

  /** Which program points belong to which task. */
  predicate PcFits(t: Thread) {
    match t.task
    case Call(_, _, slot) =>
      || ((t.pc.Begin? || t.pc.RequestOwn? || t.pc.RequestBoth?) && slot.None? && !t.sent)
      || (t.pc.Sending? && !t.sent)
      || (t.pc.Waiting? && t.sent)
      || t.pc.Cleanup? || t.pc.Ended?
    case Handle(_, _, _, _, _, holds) =>
      || ((t.pc.Admitting? || t.pc.TaskOwn?) && !holds && !t.sent)
      || ((t.pc.Deciding? || t.pc.Running?) && holds && !t.sent)
      || ((t.pc.Sending? || t.pc.MustClose?) && !t.sent)
      || (t.pc.Finished? && !holds)
    case Beat(_) => ((t.pc.Sending? || t.pc.MustClose?) && !t.sent) || t.pc.Finished?
  }

  ghost predicate Typed(ts: seq<Thread>) {
    forall k :: 0 <= k < |ts| ==> PcFits(ts[k])
  }

  ghost predicate UniqueIds(ts: seq<Thread>) {
    forall j, k :: 0 <= j < k < |ts| && ts[j].task.Call? && ts[k].task.Call? ==> ts[j].task.id != ts[k].task.id
  }

  /** The read loop is over and its handlers are reaped. */
  predicate Winding(d: Driver) {
    d.AwaitingWriter? || d.Finishing? || d.Draining? || d.Done?
  }

  predicate WriterOver(w: Writer) {
    w.Ending? || w.SinkGone? || w.Dropping? || w.Gone?
  }

  /** The phases of closing. */
  ghost predicate Phases(g: Gate, b: Book, out: Output, d: Driver) {
    && (g.closed <==> d.Done?)
    && (g.open <==> !g.notifying && !g.closeAsked)
    && (d.Reaping? || Winding(d) ==> !g.open)
    && (out.stop <==> Winding(d))
    && (WriterOver(out.writer) ==> !g.open)
    && (d.Finishing? || d.Draining? || d.Done? ==> out.writer.Gone?)
    && (out.writer.Gone? ==> out.data == [] && out.control == [])
    && (out.sink.Some? ==> InFlight(out.writer) == Some(out.sink.value.permit)
                           || out.writer == Ending(Some(out.sink.value.permit)))
    && (d.Draining? || d.Done? ==> b.pending == map[])
    && (!d.Draining? ==> b.draining == map[])
  }

  /** `handle_message` runs inside the read loop until it has answered or spawned a task. */
  predicate Inline(pc: Pc) {
    pc.Admitting? || pc.TaskOwn? || pc.Deciding?
  }

  ghost predicate Tasks(ts: seq<Thread>, d: Driver) {
    && (Winding(d) ==> AllHandled(ts))
    && (d.Handling? ==>
          && d.thread < |ts| && ts[d.thread].task.Handle?
          && (Inline(ts[d.thread].pc) || ts[d.thread].pc.Sending? || ts[d.thread].pc.MustClose?))
    && (forall k :: 0 <= k < |ts| && ts[k].task.Handle? && Inline(ts[k].pc) ==> d == Handling(k))
  }

  /** Thread `i` is an exchange for `id` whose one-shot channel is still empty. */
  predicate Unsettled(ts: seq<Thread>, id: Id, i: nat) {
    && i < |ts|
    && ts[i].task.Call?
    && ts[i].task.id == id
    && ts[i].task.slot.None?
    && Rank(ts[i].pc) >= 1
  }

  /** Before registration, registered and not settled, about to clean up, over. */
  function Rank(pc: Pc): nat {
    match pc
    case Sending(_) => 1
    case Waiting => 1
    case Cleanup(_) => 2
    case Ended(_) => 3
    case _ => 0
  }

  /** Every sending half belongs to one empty one-shot channel. */
  ghost predicate Sound(b: Book, d: Driver, ts: seq<Thread>) {
    && (forall id :: id in b.pending ==> Unsettled(ts, id, b.pending[id]) && Rank(ts[b.pending[id]].pc) < 3)
    && (forall id :: id in b.draining ==> Unsettled(ts, id, b.draining[id]) && id !in b.pending)
    && (d.Delivering? ==>
          && d.thread < |ts| && ts[d.thread].task.Call?
          && Unsettled(ts, ts[d.thread].task.id, d.thread)
          && ts[d.thread].task.id !in b.pending && ts[d.thread].task.id !in b.draining)
  }

  /** Every empty one-shot channel someone waits on has a sending half: in `pending`, among the drained
      entries, or in the hands of the read loop. */
  ghost predicate Complete(b: Book, d: Driver, ts: seq<Thread>) {
    forall k :: 0 <= k < |ts| && ts[k].task.Call? && ts[k].task.slot.None? && Rank(ts[k].pc) == 1
                ==> SenderAlive(b, d, ts[k].task.id, k)
  }

  ghost predicate CloseInv(s: State) {
    && Typed(s.threads) && UniqueIds(s.threads)
    && Phases(s.gate, s.book, s.out, s.driver)
    && Tasks(s.threads, s.driver)
    && Linked(s)
  }

  ghost predicate Linked(s: State) {
    && Sound(s.book, s.driver, s.threads)
    && Complete(s.book, s.driver, s.threads)
  }

  lemma {:induction false} CloseInvInitial()
    ensures CloseInv(InitialState())
  {
  }

  // ----- how the sending halves move

  /** A step of one thread that neither registers nor unregisters it. */
  predicate Plain(t: Thread, t': Thread) {
    && PcFits(t')
    && (t.task.Call? <==> t'.task.Call?)
    && (t.task.Handle? <==> t'.task.Handle?)
    && (t.task.Call? ==> t'.task == t.task
                         && (Rank(t'.pc) == Rank(t.pc) || (Rank(t.pc) == 1 && Rank(t'.pc) == 2)
                             || (Rank(t.pc) == 0 && Rank(t'.pc) == 3)))
  }

  /** The identity of a thread never changes, so ids stay unique. */
  lemma {:induction false} ListUpdate(ts: seq<Thread>, i: nat, t': Thread)
    requires Typed(ts) && UniqueIds(ts) && i < |ts| && PcFits(t')
    requires t'.task.Call? ==> ts[i].task.Call? && t'.task.id == ts[i].task.id
    ensures Typed(ts[i := t']) && UniqueIds(ts[i := t'])
  {
  }

  lemma {:induction false} ListAppend(ts: seq<Thread>, t: Thread)
    requires Typed(ts) && UniqueIds(ts) && PcFits(t)
    requires t.task.Call? ==> FreshId(ts, t.task.id)
    ensures Typed(ts + [t]) && UniqueIds(ts + [t])
  {
  }

  lemma {:induction false} SoundMove(b: Book, d: Driver, d': Driver, ts: seq<Thread>, i: nat, t': Thread)
    requires i < |ts| && Plain(ts[i], t') && (d' == d || (!d.Delivering? && !d'.Delivering?))
    requires Sound(b, d, ts)
    ensures Sound(b, d', ts[i := t'])
  {
  }

  lemma {:induction false} CompleteMove(b: Book, d: Driver, d': Driver, ts: seq<Thread>, i: nat, t': Thread)
    requires i < |ts| && Plain(ts[i], t') && (d' == d || (!d.Delivering? && !d'.Delivering?))
    requires Complete(b, d, ts)
    ensures Complete(b, d', ts[i := t'])
  {
  }

  lemma {:induction false} NewThread(b: Book, d: Driver, d': Driver, ts: seq<Thread>, t: Thread)
    requires t.task.Call? ==> Rank(t.pc) == 0
    requires d' == d || (!d.Delivering? && !d'.Delivering?)
    ensures Sound(b, d, ts) ==> Sound(b, d', ts + [t])
    ensures Complete(b, d, ts) ==> Complete(b, d', ts + [t])
  {
  }

  /** Before it registers, an exchange has no sending half anywhere. */
  lemma {:induction false} NotYetRegistered(b: Book, d: Driver, ts: seq<Thread>, i: nat)
    requires i < |ts| && ts[i].task.Call? && Rank(ts[i].pc) == 0
    requires UniqueIds(ts) && Sound(b, d, ts)
    ensures ts[i].task.id !in b.pending && ts[i].task.id !in b.draining
    ensures d.Delivering? ==> d.thread != i && ts[d.thread].task.id != ts[i].task.id
  {
  }

  lemma {:induction false} SoundRegistered(b: Book, d: Driver, ts: seq<Thread>, i: nat, t': Thread)
    requires i < |ts| && ts[i].task.Call? && ts[i].pc == RequestBoth && t' == ts[i].(pc := Sending(Start))
    requires PcFits(ts[i]) && UniqueIds(ts) && Sound(b, d, ts)
    ensures Sound(b.(pending := b.pending[ts[i].task.id := i]), d, ts[i := t'])
  {
    NotYetRegistered(b, d, ts, i);
  }

  lemma {:induction false} CompleteRegistered(b: Book, d: Driver, ts: seq<Thread>, i: nat, t': Thread)
    requires i < |ts| && ts[i].task.Call? && t' == ts[i].(pc := Sending(Start))
    requires UniqueIds(ts) && Complete(b, d, ts)
    ensures Complete(b.(pending := b.pending[ts[i].task.id := i]), d, ts[i := t'])
  {
  }

  lemma {:induction false} SoundUnregistered(b: Book, d: Driver, ts: seq<Thread>, i: nat, t': Thread)
    requires i < |ts| && ts[i].task.Call? && ts[i].pc.Cleanup? && t' == ts[i].(pc := Ended(ts[i].pc.outcome))
    requires UniqueIds(ts) && Sound(b, d, ts)
    ensures Sound(b.(pending := b.pending - {ts[i].task.id}), d, ts[i := t'])
  {
    var id := ts[i].task.id;
    forall other | other in b.pending && other != id
      ensures b.pending[other] != i
    {
      assert Unsettled(ts, other, b.pending[other]);
    }
  }

  lemma {:induction false} CompleteUnregistered(b: Book, d: Driver, ts: seq<Thread>, i: nat, t': Thread)
    requires i < |ts| && ts[i].task.Call? && ts[i].pc.Cleanup? && t' == ts[i].(pc := Ended(ts[i].pc.outcome))
    requires UniqueIds(ts) && Complete(b, d, ts)
    ensures Complete(b.(pending := b.pending - {ts[i].task.id}), d, ts[i := t'])
  {
  }

  lemma {:induction false} SoundTaken(b: Book, d: Driver, ts: seq<Thread>, id: Id, outcome: Outcome)
    requires id in b.pending && !d.Delivering? && Sound(b, d, ts)
    ensures Sound(b.(pending := b.pending - {id}), Delivering(b.pending[id], outcome), ts)
  {
  }

  lemma {:induction false} CompleteTaken(b: Book, d: Driver, ts: seq<Thread>, id: Id, outcome: Outcome)
    requires id in b.pending && !d.Delivering? && Complete(b, d, ts)
    ensures Complete(b.(pending := b.pending - {id}), Delivering(b.pending[id], outcome), ts)
  {
  }

  /** Completing a channel whose sending half is in no map. */
  lemma {:induction false} SoundCompleted(b: Book, ts: seq<Thread>, i: nat, outcome: Outcome, d: Driver)
    requires Sound(b, d, ts) && !d.Delivering?
    requires forall id :: id in b.pending ==> b.pending[id] != i
    requires forall id :: id in b.draining ==> b.draining[id] != i
    ensures Sound(b, d, Completed(ts, i, outcome))
  {
  }

  lemma {:induction false} SoundDelivered(b: Book, d: Driver, ts: seq<Thread>)
    requires d.Delivering? && Sound(b, d, ts)
    ensures Sound(b, Selecting, Completed(ts, d.thread, d.outcome))
  {
    var i := d.thread;
    forall id | id in b.pending ensures b.pending[id] != i {
      assert Unsettled(ts, id, b.pending[id]);
    }
    forall id | id in b.draining ensures b.draining[id] != i {
      assert Unsettled(ts, id, b.draining[id]);
    }
    SoundCompleted(b, ts, i, d.outcome, Selecting);
  }

  lemma {:induction false} CompleteDelivered(b: Book, d: Driver, ts: seq<Thread>)
    requires d.Delivering? && Complete(b, d, ts)
    ensures Complete(b, Selecting, Completed(ts, d.thread, d.outcome))
  {
  }

  lemma {:induction false} SendersDrained(b: Book, d: Driver, ts: seq<Thread>)
    requires d.Finishing? && b.draining == map[] && Sound(b, d, ts) && Complete(b, d, ts)
    ensures Sound(Book(map[], b.pending), Draining, ts)
    ensures Complete(Book(map[], b.pending), Draining, ts)
  {
  }

  lemma {:induction false} SoundFailed(b: Book, d: Driver, ts: seq<Thread>, id: Id, outcome: Outcome)
    requires id in b.draining && d.Draining? && Sound(b, d, ts)
    ensures Sound(b.(draining := b.draining - {id}), d, Completed(ts, b.draining[id], outcome))
  {
    var i := b.draining[id];
    assert Unsettled(ts, id, i);
    forall other | other in b.pending ensures b.pending[other] != i {
      assert Unsettled(ts, other, b.pending[other]);
    }
    forall other | other in b.draining && other != id ensures b.draining[other] != i {
      assert Unsettled(ts, other, b.draining[other]);
    }
    SoundCompleted(b.(draining := b.draining - {id}), ts, i, outcome, d);
  }

  lemma {:induction false} CompleteFailed(b: Book, d: Driver, ts: seq<Thread>, id: Id, outcome: Outcome)
    requires id in b.draining && d.Draining? && Complete(b, d, ts)
    ensures Complete(b.(draining := b.draining - {id}), d, Completed(ts, b.draining[id], outcome))
  {
  }

  lemma {:induction false} CompletedList(ts: seq<Thread>, i: nat, outcome: Outcome)
    requires Typed(ts) && UniqueIds(ts)
    requires i < |ts| && ts[i].task.Call? ==> Rank(ts[i].pc) >= 1
    ensures var ts' := Completed(ts, i, outcome);
            Typed(ts') && UniqueIds(ts')
  {
    if i < |ts| && ts[i].task.Call? && !ts[i].pc.Ended? {
      assert PcFits(ts[i]);
      ListUpdate(ts, i, ts[i].(task := ts[i].task.(slot := Some(outcome))));
    }
  }

  lemma {:induction false} CompletedTasks(ts: seq<Thread>, i: nat, outcome: Outcome)
    ensures var ts' := Completed(ts, i, outcome);
            && |ts'| == |ts|
            && forall k :: 0 <= k < |ts| ==> ts'[k].pc == ts[k].pc && (ts'[k].task.Handle? <==> ts[k].task.Handle?)
  {
  }

  lemma {:induction false} ReceiveKeeps(s: State, f: Frame, s': State)
    requires CloseInv(s) && s.driver.Selecting? && s' == AfterReceive(s, f)
    ensures CloseInv(s')
  {
    var b, d, ts := s.book, s.driver, s.threads;
    match f {
      case Message(id, payload) =>
        var t := s'.threads[|ts|];
        ListAppend(ts, t);
        NewThread(b, d, s'.driver, ts, t);
      case Heartbeat(_) =>
      case _ =>
        if f.id in b.pending {
          SoundTaken(b, d, ts, f.id, s'.driver.outcome);
          CompleteTaken(b, d, ts, f.id, s'.driver.outcome);
        }
    }
  }

  // ----- every step keeps the invariant

  /** One thread moves, and `Handle` threads stay what they are. */
  lemma {:induction false} TasksMove(ts: seq<Thread>, d: Driver, i: nat, t': Thread)
    requires i < |ts| && Tasks(ts, d) && ts[i].task.Call? && t'.task.Call?
    ensures Tasks(ts[i := t'], d)
  {
  }

  lemma {:induction false} InsertKeeps(s: State, i: nat, s': State)
    requires CloseInv(s) && CallAt(s, i, RequestBoth) && s' == AfterInsert(s, i)
    ensures CloseInv(s')
  {
    var b, d, ts, t' := s.book, s.driver, s.threads, s'.threads[i];
    ListUpdate(ts, i, t');
    TasksMove(ts, d, i, t');
    if s.gate.open {
      SoundRegistered(b, d, ts, i, t');
      CompleteRegistered(b, d, ts, i, t');
    } else {
      SoundMove(b, d, d, ts, i, t');
      CompleteMove(b, d, d, ts, i, t');
    }
  }

  lemma {:induction false} CleanUpKeeps(s: State, i: nat, s': State)
    requires CloseInv(s) && i < |s.threads| && s.threads[i].task.Call? && s.threads[i].pc.Cleanup?
    requires s' == AfterCleanUp(s, i)
    ensures CloseInv(s')
  {
    var b, d, ts, t' := s.book, s.driver, s.threads, s'.threads[i];
    ListUpdate(ts, i, t');
    TasksMove(ts, d, i, t');
    SoundUnregistered(b, d, ts, i, t');
    CompleteUnregistered(b, d, ts, i, t');
    if ts[i].task.id !in b.pending {
      assert b.pending - {ts[i].task.id} == b.pending;
    }
  }

  /** The steps of an exchange that touch neither `pending` nor the list of exchanges. */
  lemma {:induction false} CallMoves(c: Config, s: State, e: Event, s': State)
    requires CallStep(c, s, e, s') && !e.Send? && !e.Insert? && !e.CleanUp? && Typed(s.threads)
    ensures s'.book == s.book && s'.driver == s.driver && s'.gate == s.gate && s'.out == s.out
    ensures e.i < |s.threads| && |s'.threads| == |s.threads| && s'.threads == s.threads[e.i := s'.threads[e.i]]
    ensures s.threads[e.i].task.Call? && Plain(s.threads[e.i], s'.threads[e.i])
  {
    hide Admits, QueuePermit, TaskPermit, Released, Taken, GivenBack, AfterInsert, AfterCleanUp;
    assert PcFits(s.threads[e.i]);
  }

  lemma {:induction false} MoveKeeps(s: State, i: nat, s': State)
    requires CloseInv(s) && i < |s.threads| == |s'.threads| && s'.threads == s.threads[i := s'.threads[i]]
    requires s.threads[i].task.Call? && Plain(s.threads[i], s'.threads[i])
    requires s'.book == s.book && s'.driver == s.driver && s'.gate == s.gate && s'.out == s.out
    ensures CloseInv(s')
  {
    var b, d, ts, t' := s.book, s.driver, s.threads, s'.threads[i];
    ListUpdate(ts, i, t');
    TasksMove(ts, d, i, t');
    SoundMove(b, d, d, ts, i, t');
    CompleteMove(b, d, d, ts, i, t');
  }

  lemma {:induction false} SendingKeeps(s: State, id: Id, payload: Text, s': State)
    requires CloseInv(s) && FreshId(s.threads, id)
    requires s' == s.(threads := s.threads + [Thread(Call(id, payload, None), false, Begin)])
    ensures CloseInv(s')
  {
    var t := Thread(Call(id, payload, None), false, Begin);
    ListAppend(s.threads, t);
    NewThread(s.book, s.driver, s.driver, s.threads, t);
  }

  lemma {:induction false} CallKeeps(c: Config, s: State, e: Event, s': State)
    requires CloseInv(s) && CallStep(c, s, e, s')
    ensures CloseInv(s')
  {
    hide AfterReserveRequest, AfterReserveRequestShared, AfterInsert, AfterCleanUp, Linked, Phases, Tasks;
    if e.Send? {
      SendingKeeps(s, e.id, e.payload, s');
    } else if e.Insert? {
      InsertKeeps(s, e.i, s');
    } else if e.CleanUp? {
      CleanUpKeeps(s, e.i, s');
    } else {
      CallMoves(c, s, e, s');
      MoveKeeps(s, e.i, s');
    }
  }

  lemma {:induction false} SendMoves(c: Config, s: State, e: Event, s': State)
    requires SendStep(c, s, e, s') && !e.StartBeat? && Typed(s.threads)
    ensures s'.book == s.book && s'.driver in {s.driver, Resumed(s.driver, e.i)}
    ensures e.i < |s.threads| && |s'.threads| == |s.threads| && s'.threads == s.threads[e.i := s'.threads[e.i]]
    ensures Plain(s.threads[e.i], s'.threads[e.i])
  {
    hide Admits, QueuePermit, UniqueIds, Released, Taken, GivenBack, AfterTask, Outgoing, HasRoom;
    assert PcFits(s.threads[e.i]);
  }

  lemma {:induction false} SendKeepsSenders(c: Config, s: State, e: Event, s': State)
    requires CloseInv(s) && SendStep(c, s, e, s')
    ensures Typed(s'.threads) && UniqueIds(s'.threads) && Linked(s')
  {
    var b, d, ts := s.book, s.driver, s.threads;
    if e.StartBeat? {
      var t := Thread(Beat(e.interval), false, Sending(Start));
      ListAppend(ts, t);
      NewThread(b, d, d, ts, t);
    } else {
      SendMoves(c, s, e, s');
      var t' := s'.threads[e.i];
      ListUpdate(ts, e.i, t');
      SoundMove(b, d, s'.driver, ts, e.i, t');
      CompleteMove(b, d, s'.driver, ts, e.i, t');
    }
  }

  lemma {:induction false} PushKeepsPhases(c: Config, s: State, i: nat, s': State)
    requires CloseInv(s) && SendingAt(s, i, Both) && s' == AfterPush(c, s, i)
    ensures Phases(s'.gate, s'.book, s'.out, s'.driver) && Tasks(s'.threads, s'.driver)
  {
    hide Admits, QueuePermit, TaskPermit, Linked, Typed, UniqueIds, Counts.Charge, Counts.Refund, Outgoing;
  }

  lemma {:induction false} EnqueueKeepsPhases(c: Config, s: State, e: Event, s': State)
    requires CloseInv(s) && SendStep(c, s, e, s') && !e.Push?
    ensures Phases(s'.gate, s'.book, s'.out, s'.driver)
  {
    hide Admits, Linked, Typed, UniqueIds, Tasks, QueuePermit, FramePermit, FrameOf, Outgoing, Wire, HasRoom,
         Released, Taken, GivenBack, AfterTask, GivingUp;
  }

  lemma {:induction false} EnqueueKeepsTasks(c: Config, s: State, e: Event, s': State)
    requires CloseInv(s) && SendStep(c, s, e, s') && !e.Push?
    ensures Tasks(s'.threads, s'.driver)
  {
    hide Admits, Linked, Typed, UniqueIds, Phases, QueuePermit, FramePermit, FrameOf, Outgoing, Wire, HasRoom, Released,
         Taken, GivenBack, AfterTask, AfterPush;
  }

  lemma {:induction false} SendKeepsPhases(c: Config, s: State, e: Event, s': State)
    requires CloseInv(s) && SendStep(c, s, e, s')
    ensures Phases(s'.gate, s'.book, s'.out, s'.driver) && Tasks(s'.threads, s'.driver)
  {
    hide CloseInv, Phases, Tasks, Outgoing, AfterCheckOpen, AfterReserveQueue, AfterReserveQueueShared, AfterPush;
    if e.Push? {
      PushKeepsPhases(c, s, e.i, s');
    } else {
      EnqueueKeepsPhases(c, s, e, s');
      EnqueueKeepsTasks(c, s, e, s');
    }
  }

  lemma {:induction false} HandleMoves(c: Config, s: State, e: Event, s': State)
    requires HandleStep(c, s, e, s') && Typed(s.threads)
    ensures s'.book == s.book && s'.driver in {s.driver, Resumed(s.driver, e.i)}
    ensures e.i < |s.threads| && |s'.threads| == |s.threads| && s'.threads == s.threads[e.i := s'.threads[e.i]]
    ensures Plain(s.threads[e.i], s'.threads[e.i])
  {
    hide Admits, QueuePermit, TaskPermit, Counts.Charge, Counts.Refund, ReplyTo;
    assert PcFits(s.threads[e.i]);
  }

  lemma {:induction false} HandleKeepsSenders(c: Config, s: State, e: Event, s': State)
    requires CloseInv(s) && HandleStep(c, s, e, s')
    ensures Typed(s'.threads) && UniqueIds(s'.threads) && Linked(s')
  {
    var b, d, ts := s.book, s.driver, s.threads;
    HandleMoves(c, s, e, s');
    var t' := s'.threads[e.i];
    ListUpdate(ts, e.i, t');
    SoundMove(b, d, s'.driver, ts, e.i, t');
    CompleteMove(b, d, s'.driver, ts, e.i, t');
  }

  lemma {:induction false} HandleKeepsPhases(c: Config, s: State, e: Event, s': State)
    requires CloseInv(s) && HandleStep(c, s, e, s')
    ensures Phases(s'.gate, s'.book, s'.out, s'.driver)
  {
    hide Admits, Linked, Typed, UniqueIds, Tasks, TaskPermit, FramePermit, ReplyTo, Wire, Released, Taken,
         GivenBack, AfterTask;
  }

  lemma {:induction false} HandleKeepsTasks(c: Config, s: State, e: Event, s': State)
    requires CloseInv(s) && HandleStep(c, s, e, s')
    ensures Tasks(s'.threads, s'.driver)
  {
    hide Admits, Linked, Typed, UniqueIds, Phases, TaskPermit, FramePermit, ReplyTo, Wire, Released, Taken,
         GivenBack, AfterTask;
  }

  lemma {:induction false} ReadKeeps(s: State, e: Event, s': State)
    requires CloseInv(s) && ReadStep(s, e, s')
    ensures CloseInv(s')
  {
    hide AfterReceive;
    var b, d, ts := s.book, s.driver, s.threads;
    if e.Receive? {
      ReceiveKeeps(s, e.frame, s');
    } else if e.Deliver? {
      CompletedList(ts, d.thread, d.outcome);
      CompletedTasks(ts, d.thread, d.outcome);
      SoundDelivered(b, d, ts);
      CompleteDelivered(b, d, ts);
    }
  }

  lemma {:induction false} FailPendingKeeps(s: State, id: Id, s': State)
    requires CloseInv(s) && CloseStep(s, FailPending(id), s')
    ensures CloseInv(s')
  {
    var b, d, ts := s.book, s.driver, s.threads;
    CompletedList(ts, b.draining[id], Failed(SessionClosed));
    CompletedTasks(ts, b.draining[id], Failed(SessionClosed));
    SoundFailed(b, d, ts, id, Failed(SessionClosed));
    CompleteFailed(b, d, ts, id, Failed(SessionClosed));
  }

  lemma {:induction false} CloseKeeps(s: State, e: Event, s': State)
    requires CloseInv(s) && CloseStep(s, e, s')
    ensures CloseInv(s')
  {
    if e.FailPending? {
      FailPendingKeeps(s, e.id, s');
    } else if e.Drain? {
      SendersDrained(s.book, s.driver, s.threads);
    }
  }

  lemma {:induction false} WriteKeeps(s: State, e: Event, s': State)
    requires CloseInv(s) && WriteStep(s, e, s')
    ensures CloseInv(s')
  {
    hide Sound, Complete, Typed, UniqueIds, Tasks, Released, Wire;
  }

  lemma {:induction false} WindUpKeeps(s: State, e: Event, s': State)
    requires CloseInv(s) && WindUpStep(s, e, s')
    ensures CloseInv(s')
  {
    hide Sound, Complete, Typed, UniqueIds, Tasks, Counts.Refund;
  }

  /** Every step of every activity keeps the invariant. */
  lemma {:induction false} StepKeeps(c: Config, s: State, e: Event, s': State)
    requires CloseInv(s) && Step(c, s, e, s')
    ensures CloseInv(s')
  {
    hide CallStep, SendStep, HandleStep, ReadStep, CloseStep, WriteStep, WindUpStep, Typed, UniqueIds, Linked,
         Phases, Tasks;
    if CallStep(c, s, e, s') {
      CallKeeps(c, s, e, s');
    } else if SendStep(c, s, e, s') {
      SendKeepsSenders(c, s, e, s');
      SendKeepsPhases(c, s, e, s');
    } else if HandleStep(c, s, e, s') {
      HandleKeepsSenders(c, s, e, s');
      HandleKeepsPhases(c, s, e, s');
      HandleKeepsTasks(c, s, e, s');
    } else if ReadStep(s, e, s') {
      ReadKeeps(s, e, s');
    } else if CloseStep(s, e, s') {
      CloseKeeps(s, e, s');
    } else if WriteStep(s, e, s') {
      WriteKeeps(s, e, s');
    } else {
      WindUpKeeps(s, e, s');
    }
  }

  lemma {:induction false} RunKeeps(c: Config, run: seq<State>, events: seq<Event>, k: nat)
    requires Run(c, run, events) && k < |run|
    ensures CloseInv(run[k])
  {
    hide Step, CloseInv, InitialState;
    if k == 0 {
      CloseInvInitial();
    } else {
      RunKeeps(c, run, events, k - 1);
      assert StepAt(c, run, events, k - 1);
      StepKeeps(c, run[k - 1], events[k - 1], run[k]);
    }
  }
}
