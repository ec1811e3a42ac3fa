/** Who holds which permits: the counters of a session are sums over what is alive in it. */
module SessionPermits {
  import opened Texts
  import opened Frames
  import opened Resources
  import opened Sessions
  import opened SessionClose
  import opened SessionSettlement
  import opened SessionHistory
  import opened SessionLanes
  import opened SessionOrigins

  /** What a thread holds of the session's own budget; or, if `half`, what it holds of that budget
      alone because the shared one has not answered yet. */
  function Holding(t: Thread, half: bool, g: Gauge): nat {
    (if t.pc.RequestOwn? || (t.pc.RequestBoth? && !half) then Weight(REQUEST, g) else 0)
    + (if t.pc == Sending(Own) || (t.pc == Sending(Both) && !half) then Weight(QueuePermit(t), g) else 0)
    + (if t.task.Handle? && (t.pc.TaskOwn? || (t.task.holds && !half)) then Weight(TaskPermit(t), g) else 0)
  }

  function ThreadsHold(ts: seq<Thread>, half: bool, g: Gauge): nat {
    if ts == [] then 0 else ThreadsHold(ts[..|ts| - 1], half, g) + Holding(ts[|ts| - 1], half, g)
  }

  function ItemsHold(items: seq<Item>, g: Gauge): nat {
    if items == [] then 0 else Weight(items[0].permit, g) + ItemsHold(items[1..], g)
  }

  function WriterPermit(w: Writer): Option<Permit> {
    match w
    case Picked(item) => Some(item.permit)
    case Writing(item) => Some(item.permit)
    case Failing(item) => Some(item.permit)
    case Ending(permit) => permit
    case SinkGone(permit) => permit
    case _ => None
  }

  function WriterHolds(w: Writer, g: Gauge): nat {
    if WriterPermit(w).Some? then Weight(WriterPermit(w).value, g) else 0
  }

  function OutputHolds(out: Output, g: Gauge): nat {
    ItemsHold(out.data, g) + ItemsHold(out.control, g) + WriterHolds(out.writer, g)
  }

  /** Every entry of `pending`, or taken out of it by `finish_close` and not yet failed, has one. */
  function BookHolds(b: Book, g: Gauge): nat {
    if g.PendingRequests? then |b.pending| + |b.draining| else 0
  }

  function Held(s: State, g: Gauge): nat {
    ThreadsHold(s.threads, false, g) + OutputHolds(s.out, g) + BookHolds(s.book, g)
  }

  /** What the session holds of the shared budget. */
  function SharedHeld(s: State, g: Gauge): int {
    Held(s, g) - ThreadsHold(s.threads, true, g) + Total(s.ledger.dropping, g)
  }

  function Gap(s: State, g: Gauge): int {
    s.ledger.usage.At(g) - Held(s, g)
  }

  /** The permit that a step asks the shared budget for. */
  function Asked(s: State, e: Event): Option<Permit> {
    if e.ReserveRequestShared? then Some(REQUEST)
    else if e.ReserveQueueShared? && e.i < |s.threads| then Some(QueuePermit(s.threads[e.i]))
    else if e.ReserveTaskShared? && e.i < |s.threads| && s.threads[e.i].task.Handle?
    then Some(TaskPermit(s.threads[e.i]))
    else None
  }

  predicate Granted(e: Event) {
    || (e.ReserveRequestShared? && e.granted)
    || (e.ReserveQueueShared? && e.granted)
    || (e.ReserveTaskShared? && e.granted)
  }

  /** What a step takes from the shared budget, or gives back to it. */
  function SharedChange(s: State, e: Event, g: Gauge): int {
    if Granted(e) && Asked(s, e).Some? then Weight(Asked(s, e).value, g)
    else if e.ReleaseShared? && e.k < |s.ledger.dropping| then 0 - Weight(s.ledger.dropping[e.k], g)
    else 0
  }

  /** Holdings and counters move together. */
  ghost predicate Accounts(s: State, e: Event, s': State, g: Gauge) {
    && Gap(s', g) == Gap(s, g)
    && SharedHeld(s', g) == SharedHeld(s, g) + SharedChange(s, e, g)
  }

  lemma {:induction false} HoldAppend(ts: seq<Thread>, t: Thread, half: bool, g: Gauge)
    ensures ThreadsHold(ts + [t], half, g) == ThreadsHold(ts, half, g) + Holding(t, half, g)
  {
    assert (ts + [t])[..|ts|] == ts;
  }

  lemma {:induction false} HoldUpdate(ts: seq<Thread>, i: nat, t: Thread, half: bool, g: Gauge)
    requires i < |ts|
    ensures ThreadsHold(ts[i := t], half, g) + Holding(ts[i], half, g) == ThreadsHold(ts, half, g) + Holding(t, half, g)
    decreases |ts|
  {
    var n := |ts| - 1;
    if i == n {
      assert ts[i := t][..n] == ts[..n];
    } else {
      HoldUpdate(ts[..n], i, t, half, g);
      assert ts[i := t][..n] == ts[..n][i := t];
    }
  }

  lemma {:induction false} HalfIsPart(ts: seq<Thread>, g: Gauge)
    ensures ThreadsHold(ts, true, g) <= ThreadsHold(ts, false, g)
  {
    hide Weight, FramePermit;
    if ts != [] {
      HalfIsPart(ts[..|ts| - 1], g);
    }
  }

  lemma {:induction false} HoldItemsAppend(items: seq<Item>, item: Item, g: Gauge)
    ensures ItemsHold(items + [item], g) == ItemsHold(items, g) + Weight(item.permit, g)
  {
    if items != [] {
      HoldItemsAppend(items[1..], item, g);
      assert (items + [item])[1..] == items[1..] + [item];
    }
  }

  lemma {:induction false} SizeWithout<K, V>(m: map<K, V>, k: K)
    requires k in m
    ensures |m - {k}| == |m| - 1
  {
    assert m == (m - {k})[k := m[k]];
  }

  lemma {:induction false} RequestWeight(g: Gauge)
    ensures Weight(REQUEST, g) == if g.PendingRequests? then 1 else 0
  {
  }

  // ----- the steps of one thread

  /** The ledger of a thread's step: it takes a permit, returns one half of it, or returns the whole. */
  predicate LedgerMoves(l: Ledger, l': Ledger, g: Gauge, own: int, dropped: int) {
    && l'.usage.At(g) == l.usage.At(g) + own
    && Total(l'.dropping, g) == Total(l.dropping, g) + dropped
  }

  lemma {:induction false} TakenMoves(l: Ledger, p: Permit, g: Gauge)
    ensures LedgerMoves(l, Taken(l, p), g, Weight(p, g), 0)
    ensures LedgerMoves(l, GivenBack(l, p), g, 0 - Weight(p, g), 0)
    ensures LedgerMoves(l, Released(l, p), g, 0 - Weight(p, g), Weight(p, g))
  {
    hide Weight, Counts.At, Counts.Charge, Counts.Refund;
    ChargeAt(l.usage, p, g);
    TotalAppend(l.dropping, p, g);
  }

  /** The three outcomes of moving thread `i`, given what else the step moves. */
  lemma {:induction false} ThreadAccounts(s: State, e: Event, s': State, i: nat, g: Gauge, own: int, dropped: int)
    requires i < |s.threads| == |s'.threads| && s'.threads == s.threads[i := s'.threads[i]]
    requires LedgerMoves(s.ledger, s'.ledger, g, own, dropped)
    requires var t, t' := s.threads[i], s'.threads[i];
             var out := OutputHolds(s'.out, g) - OutputHolds(s.out, g) + BookHolds(s'.book, g) - BookHolds(s.book, g);
             && own == Holding(t', false, g) - Holding(t, false, g) + out
             && own - Holding(t', true, g) + Holding(t, true, g) + dropped == SharedChange(s, e, g)
    ensures Accounts(s, e, s', g)
  {
    hide Weight, FramePermit, Counts.At, Counts.Charge, Counts.Refund, Total, Admits, Holding, BookHolds, ItemsHold;
    HoldUpdate(s.threads, i, s'.threads[i], false, g);
    HoldUpdate(s.threads, i, s'.threads[i], true, g);
  }

  lemma {:induction false} ReserveRequestAccounts(c: Config, s: State, i: nat, s': State, g: Gauge)
    requires CloseInv(s) && CallAt(s, i, Begin) && s' == AfterReserveRequest(c, s, i)
    ensures Accounts(s, ReserveRequest(i), s', g)
  {
    hide Weight, FramePermit, Counts.At, Counts.Charge, Counts.Refund, Total, Admits, CloseInv, BookHolds, ItemsHold;
    TakenMoves(s.ledger, REQUEST, g);
    RequestWeight(g);
    ThreadAccounts(s, ReserveRequest(i), s', i, g, if s'.threads[i].pc.RequestOwn? then Weight(REQUEST, g) else 0, 0);
  }

  lemma {:induction false} ReserveRequestSharedAccounts(s: State, i: nat, granted: bool, s': State, g: Gauge)
    requires CloseInv(s) && CallAt(s, i, RequestOwn) && s' == AfterReserveRequestShared(s, i, granted)
    ensures Accounts(s, ReserveRequestShared(i, granted), s', g)
  {
    hide Weight, FramePermit, Counts.At, Counts.Charge, Counts.Refund, Total, Admits, CloseInv, BookHolds, ItemsHold;
    TakenMoves(s.ledger, REQUEST, g);
    RequestWeight(g);
    ThreadAccounts(s, ReserveRequestShared(i, granted), s', i, g, if granted then 0 else 0 - Weight(REQUEST, g), 0);
  }

  lemma {:induction false} InsertsFresh(s: State, i: nat)
    requires CloseInv(s) && CallAt(s, i, RequestBoth)
    ensures s.threads[i].task.id !in s.book.pending
  {
    hide Phases, Tasks, Typed, Complete, Unsettled, UniqueIds, Sound;
    NotYetRegistered(s.book, s.driver, s.threads, i);
  }

  lemma {:induction false} InsertAccounts(s: State, i: nat, s': State, g: Gauge)
    requires CloseInv(s) && CallAt(s, i, RequestBoth) && s' == AfterInsert(s, i)
    ensures Accounts(s, Insert(i), s', g)
  {
    hide Weight, FramePermit, Counts.At, Released, Total, Admits, Accounts, OutputHolds, ThreadsHold,
         QueuePermit, TaskPermit, CloseInv;
    TakenMoves(s.ledger, REQUEST, g);
    RequestWeight(g);
    InsertsFresh(s, i);
    var w: int := Weight(REQUEST, g);
    ThreadAccounts(s, Insert(i), s', i, g, if s.gate.open then 0 else 0 - w, if s.gate.open then 0 else w);
  }

  lemma {:induction false} CleanUpHolds(s: State, i: nat, g: Gauge)
    requires i < |s.threads| && s.threads[i].task.Call? && s.threads[i].pc.Cleanup?
    ensures forall half ::
              Holding(s.threads[i], half, g) == 0
              && Holding(s.threads[i].(pc := Ended(s.threads[i].pc.outcome)), half, g) == 0
  {
    hide Weight, QueuePermit, TaskPermit;
  }

  lemma {:induction false} CleanUpAccounts(s: State, i: nat, s': State, g: Gauge)
    requires i < |s.threads| && s.threads[i].task.Call? && s.threads[i].pc.Cleanup?
    requires s' == AfterCleanUp(s, i)
    ensures Accounts(s, CleanUp(i), s', g)
  {
    hide Weight, Counts.At, Released, Accounts, OutputHolds, ThreadsHold, Holding, LedgerMoves;
    TakenMoves(s.ledger, REQUEST, g);
    RequestWeight(g);
    CleanUpHolds(s, i, g);
    var id := s.threads[i].task.id;
    var w: int := Weight(REQUEST, g);
    assert Holding(s'.threads[i], false, g) == 0 && Holding(s'.threads[i], true, g) == 0;
    assert Holding(s.threads[i], false, g) == 0 && Holding(s.threads[i], true, g) == 0;
    if id in s.book.pending {
      SizeWithout(s.book.pending, id);
      ThreadAccounts(s, CleanUp(i), s', i, g, 0 - w, w);
    } else {
      NothingMoves(s.ledger, g);
      ThreadAccounts(s, CleanUp(i), s', i, g, 0, 0);
    }
  }

  lemma {:induction false} NothingMoves(l: Ledger, g: Gauge)
    ensures LedgerMoves(l, l, g, 0, 0)
  {
    hide Counts.At, Total;
  }

  lemma {:induction false} CallAccounts(c: Config, s: State, e: Event, s': State, g: Gauge)
    requires CloseInv(s) && CallStep(c, s, e, s')
    ensures Accounts(s, e, s', g)
  {
    hide Weight, FramePermit, Counts.At, Counts.Charge, Counts.Refund, Total, Admits, Accounts, CloseInv,
         ThreadsHold, ItemsHold, BookHolds, AfterReserveRequest, AfterReserveRequestShared, AfterInsert,
         AfterCleanUp;
    if e.Send? {
      AppendAccounts(s, e, s', s'.threads[|s.threads|], g);
    } else if e.ReserveRequest? {
      ReserveRequestAccounts(c, s, e.i, s', g);
    } else if e.ReserveRequestShared? {
      ReserveRequestSharedAccounts(s, e.i, e.granted, s', g);
    } else if e.Insert? {
      InsertAccounts(s, e.i, s', g);
    } else if e.CleanUp? {
      CleanUpAccounts(s, e.i, s', g);
    } else {
      ThreadAccounts(s, e, s', e.i, g, 0, 0);
    }
  }

  // ----- enqueue

  lemma {:induction false} CheckOpenAccounts(c: Config, s: State, i: nat, s': State, g: Gauge)
    requires CloseInv(s) && SendingAt(s, i, Start) && s' == AfterCheckOpen(c, s, i)
    ensures Accounts(s, CheckOpen(i), s', g)
  {
    hide Weight, FramePermit, Counts.At, Counts.Charge, Counts.Refund, Total, Admits, CloseInv, BookHolds, ItemsHold;
    ThreadAccounts(s, CheckOpen(i), s', i, g, 0, 0);
  }

  lemma {:induction false} ReserveQueueAccounts(c: Config, s: State, i: nat, s': State, g: Gauge)
    requires CloseInv(s) && SendingAt(s, i, Checked) && s' == AfterReserveQueue(c, s, i)
    ensures Accounts(s, ReserveQueue(i), s', g)
  {
    hide Weight, FramePermit, Counts.At, Counts.Charge, Counts.Refund, Total, Admits, CloseInv, BookHolds, ItemsHold;
    var p := QueuePermit(s.threads[i]);
    TakenMoves(s.ledger, p, g);
    ThreadAccounts(s, ReserveQueue(i), s', i, g, if s'.threads[i].pc == Sending(Own) then Weight(p, g) else 0, 0);
  }

  lemma {:induction false} ReserveQueueSharedAccounts(s: State, i: nat, granted: bool, s': State, g: Gauge)
    requires CloseInv(s) && SendingAt(s, i, Own) && s' == AfterReserveQueueShared(s, i, granted)
    ensures Accounts(s, ReserveQueueShared(i, granted), s', g)
  {
    hide Weight, FramePermit, Counts.At, Counts.Charge, Counts.Refund, Total, Admits, CloseInv, BookHolds, ItemsHold;
    var p := QueuePermit(s.threads[i]);
    TakenMoves(s.ledger, p, g);
    ThreadAccounts(s, ReserveQueueShared(i, granted), s', i, g, if granted then 0 else 0 - Weight(p, g), 0);
  }

  /** The task permits a thread returns when it ends. */
  function Task0(t: Thread, g: Gauge): nat {
    if t.task.Handle? && t.task.holds then Weight(TaskPermit(t), g) else 0
  }

  lemma {:induction false} TaskMoves(l: Ledger, t: Thread, g: Gauge)
    ensures LedgerMoves(l, AfterTask(l, t), g, 0 - Task0(t, g), Task0(t, g))
  {
    hide Weight, FramePermit, Counts.At, Counts.Charge, Counts.Refund, Total, Admits;
    if t.task.Handle? && t.task.holds {
      TakenMoves(l, TaskPermit(t), g);
    }
  }

  lemma {:induction false} NoRoomAccounts(c: Config, s: State, i: nat, s': State, g: Gauge)
    requires CloseInv(s) && SendingAt(s, i, Both) && !HasRoom(c, s.out, s.threads[i]) && s' == AfterPush(c, s, i)
    ensures Accounts(s, Push(i), s', g)
  {
    hide Weight, FramePermit, Counts.At, Counts.Refund, Total, Accounts, CloseInv, BookHolds, ItemsHold;
    var t := s.threads[i];
    TakenMoves(s.ledger, QueuePermit(t), g);
    ThreadAccounts(s, Push(i), s', i, g, 0 - Weight(QueuePermit(t), g), Weight(QueuePermit(t), g));
  }

  lemma {:induction false} PushedAccounts(c: Config, s: State, i: nat, s': State, g: Gauge)
    requires CloseInv(s) && SendingAt(s, i, Both) && HasRoom(c, s.out, s.threads[i]) && s' == AfterPush(c, s, i)
    ensures Accounts(s, Push(i), s', g)
  {
    hide Weight, FramePermit, Counts.At, Counts.Refund, Total, Accounts, Phases, Tasks, Linked, UniqueIds,
         BookHolds, ItemsHold;
    var t := s.threads[i];
    var item := Item(Outgoing(t), QueuePermit(t), i);
    assert PcFits(t);
    TaskMoves(s.ledger, t, g);
    if t.task.Call? {
      HoldItemsAppend(s.out.data, item, g);
      ThreadAccounts(s, Push(i), s', i, g, 0, 0);
    } else {
      HoldItemsAppend(s.out.control, item, g);
      ThreadAccounts(s, Push(i), s', i, g, 0 - Task0(t, g), Task0(t, g));
    }
  }

  lemma {:induction false} UnsentAccounts(s: State, e: Event, i: nat, s': State, g: Gauge)
    requires i < |s.threads| && !s.threads[i].task.Call? && (s.threads[i].pc.MustClose? || s.threads[i].pc.Running?)
    requires s' == Unsent(s, i).(gate := s'.gate) && SharedChange(s, e, g) == 0
    ensures Accounts(s, e, s', g)
  {
    hide Weight, FramePermit, Counts.At, Counts.Charge, Counts.Refund, Total, Admits, BookHolds, ItemsHold;
    var t := s.threads[i];
    TaskMoves(s.ledger, t, g);
    ThreadAccounts(s, e, s', i, g, 0 - Task0(t, g), Task0(t, g));
  }

  lemma {:induction false} SendAccounts(c: Config, s: State, e: Event, s': State, g: Gauge)
    requires CloseInv(s) && SendStep(c, s, e, s')
    ensures Accounts(s, e, s', g)
  {
    hide Weight, FramePermit, Counts.At, Counts.Charge, Counts.Refund, Total, Admits, Accounts, CloseInv,
         ThreadsHold, ItemsHold, BookHolds, AfterCheckOpen, AfterReserveQueue, AfterReserveQueueShared, AfterPush,
         HasRoom;
    if e.StartBeat? {
      AppendAccounts(s, e, s', s'.threads[|s.threads|], g);
    } else if e.CheckOpen? {
      CheckOpenAccounts(c, s, e.i, s', g);
    } else if e.ReserveQueue? {
      ReserveQueueAccounts(c, s, e.i, s', g);
    } else if e.ReserveQueueShared? {
      ReserveQueueSharedAccounts(s, e.i, e.granted, s', g);
    } else if e.Push? {
      if HasRoom(c, s.out, s.threads[e.i]) {
        PushedAccounts(c, s, e.i, s', g);
      } else {
        NoRoomAccounts(c, s, e.i, s', g);
      }
    } else {
      UnsentAccounts(s, e, e.i, s', g);
    }
  }

  // ----- handle_message

  lemma {:induction false} ReserveTaskAccounts(c: Config, s: State, i: nat, problem: Text, s': State, g: Gauge)
    requires CloseInv(s) && HandleAt(s, i, Admitting) && s' == AfterReserveTask(c, s, i, problem)
    ensures Accounts(s, ReserveTask(i, problem), s', g)
  {
    hide Weight, FramePermit, Counts.At, Counts.Charge, Counts.Refund, Total, Admits, Phases, Tasks, Linked,
         UniqueIds, BookHolds, ItemsHold;
    var p := TaskPermit(s.threads[i]);
    assert PcFits(s.threads[i]);
    TakenMoves(s.ledger, p, g);
    ThreadAccounts(s, ReserveTask(i, problem), s', i, g, if s'.threads[i].pc.TaskOwn? then Weight(p, g) else 0, 0);
  }

  lemma {:induction false} ReserveTaskSharedAccounts(s: State, i: nat, granted: bool, problem: Text, s': State,
                                                     g: Gauge)
    requires CloseInv(s) && HandleAt(s, i, TaskOwn) && s' == AfterReserveTaskShared(s, i, granted, problem)
    ensures Accounts(s, ReserveTaskShared(i, granted, problem), s', g)
  {
    hide Weight, FramePermit, Counts.At, Counts.Charge, Counts.Refund, Total, Admits, Phases, Tasks, Linked,
         UniqueIds, BookHolds, ItemsHold;
    var p := TaskPermit(s.threads[i]);
    assert PcFits(s.threads[i]);
    TakenMoves(s.ledger, p, g);
    ThreadAccounts(s, ReserveTaskShared(i, granted, problem), s', i, g, if granted then 0 else 0 - Weight(p, g), 0);
  }

  lemma {:induction false} HandleAccounts(c: Config, s: State, e: Event, s': State, g: Gauge)
    requires CloseInv(s) && HandleStep(c, s, e, s')
    ensures Accounts(s, e, s', g)
  {
    hide Weight, FramePermit, Counts.At, Counts.Charge, Counts.Refund, Total, Admits, Accounts, CloseInv,
         ThreadsHold, ItemsHold, BookHolds, AfterReserveTask, AfterReserveTaskShared;
    if e.ReserveTask? {
      ReserveTaskAccounts(c, s, e.i, e.problem, s', g);
    } else if e.ReserveTaskShared? {
      ReserveTaskSharedAccounts(s, e.i, e.granted, e.problem, s', g);
    } else if e.Abort? {
      UnsentAccounts(s, e, e.i, s', g);
    } else {
      ThreadAccounts(s, e, s', e.i, g, 0, 0);
    }
  }

  // ----- read loop and closing

  lemma {:induction false} CompletedHolds(ts: seq<Thread>, i: nat, o: Outcome, g: Gauge)
    ensures forall half :: ThreadsHold(Completed(ts, i, o), half, g) == ThreadsHold(ts, half, g)
  {
    hide Weight, Wire, ThreadsHold;
    forall half ensures ThreadsHold(Completed(ts, i, o), half, g) == ThreadsHold(ts, half, g) {
      if i < |ts| && ts[i].task.Call? && !ts[i].pc.Ended? {
        var t := ts[i].(task := ts[i].task.(slot := Some(o)));
        HoldUpdate(ts, i, t, half, g);
        assert Holding(t, half, g) == Holding(ts[i], half, g);
      }
    }
  }

  /** An entry leaves the book and its permit is dropped, or the book does not change in size. */
  lemma {:induction false} BookAccounts(s: State, e: Event, s': State, g: Gauge, entries: nat)
    requires forall half :: ThreadsHold(s'.threads, half, g) == ThreadsHold(s.threads, half, g)
    requires s'.out.(stop := s.out.stop) == s.out && SharedChange(s, e, g) == 0
    requires |s'.book.pending| + |s'.book.draining| + entries == |s.book.pending| + |s.book.draining|
    requires entries == 0 ==> s'.ledger == s.ledger
    requires entries == 1 ==> s'.ledger == Released(s.ledger, REQUEST)
    requires entries <= 1
    ensures Accounts(s, e, s', g)
  {
    hide Weight, Counts.At, Released, Total, ThreadsHold, ItemsHold;
    TakenMoves(s.ledger, REQUEST, g);
    RequestWeight(g);
    assert ThreadsHold(s'.threads, true, g) == ThreadsHold(s.threads, true, g);
    assert ThreadsHold(s'.threads, false, g) == ThreadsHold(s.threads, false, g);
  }

  lemma {:induction false} AppendAccounts(s: State, e: Event, s': State, t: Thread, g: Gauge)
    requires s'.threads == s.threads + [t] && (forall half :: Holding(t, half, g) == 0)
    requires s'.out == s.out && s'.book == s.book && s'.ledger == s.ledger && SharedChange(s, e, g) == 0
    ensures Accounts(s, e, s', g)
  {
    hide Weight, Counts.At, Total, ThreadsHold, ItemsHold, Holding;
    HoldAppend(s.threads, t, false, g);
    HoldAppend(s.threads, t, true, g);
    assert Holding(t, false, g) == 0 && Holding(t, true, g) == 0;
  }

  lemma {:induction false} ReceiveAccounts(s: State, f: Frame, s': State, g: Gauge)
    requires s' == AfterReceive(s, f)
    ensures Accounts(s, Receive(f), s', g)
  {
    hide Weight, FramePermit, Counts.At, Counts.Refund, Total, ItemsHold, ThreadsHold, Accounts;
    if f.Message? {
      AppendAccounts(s, Receive(f), s', s'.threads[|s.threads|], g);
    } else if !f.Heartbeat? && f.id in s.book.pending {
      SizeWithout(s.book.pending, f.id);
      BookAccounts(s, Receive(f), s', g, 1);
    } else {
      BookAccounts(s, Receive(f), s', g, 0);
    }
  }

  lemma {:induction false} ReadAccounts(s: State, e: Event, s': State, g: Gauge)
    requires ReadStep(s, e, s')
    ensures Accounts(s, e, s', g)
  {
    hide Weight, Counts.At, Total, ItemsHold, ThreadsHold, Accounts, AfterReceive;
    if e.Receive? {
      ReceiveAccounts(s, e.frame, s', g);
    } else {
      if e.Deliver? {
        CompletedHolds(s.threads, s.driver.thread, s.driver.outcome, g);
      }
      BookAccounts(s, e, s', g, 0);
    }
  }

  lemma {:induction false} ReleaseAccounts(s: State, k: nat, s': State, g: Gauge)
    requires k < |s.ledger.dropping| && s' == s.(ledger := s.ledger.(dropping := Without(s.ledger.dropping, k)))
    ensures Accounts(s, ReleaseShared(k), s', g)
  {
    hide Weight, Counts.At, Total, OutputHolds, BookHolds, ThreadsHold;
    TotalWithout(s.ledger.dropping, k, g);
  }

  lemma {:induction false} FailAccounts(s: State, id: Id, s': State, g: Gauge)
    requires CloseStep(s, FailPending(id), s')
    ensures Accounts(s, FailPending(id), s', g)
  {
    hide Weight, Counts.At, Total, Without, Released, Completed, OutputHolds, Holding, ThreadsHold, Accounts;
    SizeWithout(s.book.draining, id);
    CompletedHolds(s.threads, s.book.draining[id], Failed(SessionClosed), g);
    BookAccounts(s, FailPending(id), s', g, 1);
  }

  lemma {:induction false} DrainAccounts(s: State, s': State, g: Gauge)
    requires CloseStep(s, Drain, s') && s.book.draining == map[]
    ensures Accounts(s, Drain, s', g)
  {
    hide Weight, Counts.At, Total, Without, Released, Completed, OutputHolds, Holding, ThreadsHold, Accounts;
    BookAccounts(s, Drain, s', g, 0);
  }

  /** The other steps of closing touch neither entries nor permits. */
  lemma {:induction false} ClosingHoldsNothing(s: State, e: Event, s': State)
    requires CloseStep(s, e, s') && !e.ReleaseShared? && !e.FailPending? && !e.Drain?
    ensures s'.threads == s.threads && s'.book == s.book && s'.ledger == s.ledger
    ensures s'.out.(stop := s.out.stop) == s.out && !Granted(e)
  {
    hide Released, Completed, Without, AllHandled;
  }

  lemma {:induction false} ReleasesShared(s: State, k: nat, s': State)
    requires CloseStep(s, ReleaseShared(k), s')
    ensures k < |s.ledger.dropping| && s' == s.(ledger := s.ledger.(dropping := Without(s.ledger.dropping, k)))
  {
    hide Released, Completed, Without, AllHandled;
  }

  lemma {:induction false} NothingDrainsYet(s: State, s': State)
    requires CloseInv(s) && CloseStep(s, Drain, s')
    ensures s.book.draining == map[]
  {
    hide Released, Completed, Without, AllHandled, Linked, Typed, UniqueIds, Tasks;
  }

  lemma {:induction false} CloseAccounts(s: State, e: Event, s': State, g: Gauge)
    requires CloseInv(s) && CloseStep(s, e, s')
    ensures Accounts(s, e, s', g)
  {
    hide CloseStep, CloseInv, Weight, Counts.At, Total, Without, Released, OutputHolds, Holding, ThreadsHold,
         Accounts;
    if e.ReleaseShared? {
      ReleasesShared(s, e.k, s');
      ReleaseAccounts(s, e.k, s', g);
    } else if e.FailPending? {
      FailAccounts(s, e.id, s', g);
    } else if e.Drain? {
      NothingDrainsYet(s, s');
      DrainAccounts(s, s', g);
    } else {
      ClosingHoldsNothing(s, e, s');
      BookAccounts(s, e, s', g, 0);
    }
  }

  // ----- writer

  lemma {:induction false} HoldPopped(items: seq<Item>, g: Gauge)
    requires items != []
    ensures ItemsHold(items, g) == Weight(items[0].permit, g) + ItemsHold(items[1..], g)
  {
  }

  /** What the queues and the writer let go of is given back. */
  predicate OutputMoves(out: Output, l: Ledger, out': Output, l': Ledger, g: Gauge) {
    var change := OutputHolds(out', g) - OutputHolds(out, g);
    LedgerMoves(l, l', g, change, -change)
  }

  lemma {:induction false} OutputAccounts(s: State, e: Event, s': State, g: Gauge)
    requires s'.threads == s.threads && s'.book == s.book && !Granted(e) && !e.ReleaseShared?
    requires OutputMoves(s.out, s.ledger, s'.out, s'.ledger, g)
    ensures Accounts(s, e, s', g)
  {
    hide OutputHolds, Weight, Counts.At, Total;
  }

  lemma {:induction false} PickMoves(s: State, e: Event, s': State, g: Gauge)
    requires WriteStep(s, e, s') && (e.PickControl? || e.PickData?)
    ensures OutputMoves(s.out, s.ledger, s'.out, s'.ledger, g)
  {
    hide Weight, Counts.At, Total, ItemsHold;
    HoldPopped(if e.PickControl? then s.out.control else s.out.data, g);
  }

  lemma {:induction false} WrittenMoves(s: State, e: Event, s': State, g: Gauge)
    requires WriteStep(s, e, s') && (e.StartWrite? || e.Written?)
    ensures OutputMoves(s.out, s.ledger, s'.out, s'.ledger, g)
  {
    hide Weight, Counts.At, Counts.Refund, Total, ItemsHold;
    TakenMoves(s.ledger, s.out.writer.item.permit, g);
  }

  lemma {:induction false} WriteAccounts(s: State, e: Event, s': State, g: Gauge)
    requires WriteStep(s, e, s')
    ensures Accounts(s, e, s', g)
  {
    hide Weight, Counts.At, Counts.Refund, Total, ItemsHold, Accounts;
    if e.PickControl? || e.PickData? {
      PickMoves(s, e, s', g);
    } else if e.StartWrite? || e.Written? {
      WrittenMoves(s, e, s', g);
    }
    OutputAccounts(s, e, s', g);
  }

  lemma {:induction false} DropMoves(s: State, e: Event, s': State, g: Gauge)
    requires WindUpStep(s, e, s') && (e.DropControl? || e.DropData?)
    ensures OutputMoves(s.out, s.ledger, s'.out, s'.ledger, g)
  {
    hide Weight, Counts.At, Counts.Refund, Total, ItemsHold;
    var items := if e.DropControl? then s.out.control else s.out.data;
    HoldPopped(items, g);
    TakenMoves(s.ledger, items[0].permit, g);
  }

  lemma {:induction false} WindUpAccounts(s: State, e: Event, s': State, g: Gauge)
    requires WindUpStep(s, e, s')
    ensures Accounts(s, e, s', g)
  {
    hide Weight, Counts.At, Counts.Refund, Total, ItemsHold, Accounts;
    if e.CloseQueues? && s.out.writer.permit.Some? {
      TakenMoves(s.ledger, s.out.writer.permit.value, g);
    } else if e.DropControl? || e.DropData? {
      DropMoves(s, e, s', g);
    }
    OutputAccounts(s, e, s', g);
  }

  lemma {:induction false} StepAccounts(c: Config, s: State, e: Event, s': State, g: Gauge)
    requires CloseInv(s) && Step(c, s, e, s')
    ensures Accounts(s, e, s', g)
  {
    hide CallStep, SendStep, HandleStep, ReadStep, CloseStep, WriteStep, WindUpStep, Accounts, CloseInv;
    if CallStep(c, s, e, s') {
      CallAccounts(c, s, e, s', g);
    } else if SendStep(c, s, e, s') {
      SendAccounts(c, s, e, s', g);
    } else if HandleStep(c, s, e, s') {
      HandleAccounts(c, s, e, s', g);
    } else if ReadStep(s, e, s') {
      ReadAccounts(s, e, s', g);
    } else if CloseStep(s, e, s') {
      CloseAccounts(s, e, s', g);
    } else if WriteStep(s, e, s') {
      WriteAccounts(s, e, s', g);
    } else {
      WindUpAccounts(s, e, s', g);
    }
  }

  // ----- over whole runs

  /** The permit that a step asks the session's own budget for. */
  function Wanted(s: State, e: Event): Option<Permit> {
    if e.ReserveRequest? then Some(REQUEST)
    else if e.ReserveQueue? && e.i < |s.threads| then Some(QueuePermit(s.threads[e.i]))
    else if e.ReserveTask? && e.i < |s.threads| && s.threads[e.i].task.Handle? then Some(TaskPermit(s.threads[e.i]))
    else None
  }

  /** A step takes at most one admitted permit, or gives back at most one. */
  ghost predicate UsageMoves(c: Config, s: State, e: Event, s': State) {
    var u, u' := s.ledger.usage, s'.ledger.usage;
    || u' == u
    || (Wanted(s, e).Some? && Admits(c.limits, u, Wanted(s, e).value) && u' == u.Charge(Wanted(s, e).value))
    || (exists p :: u' == u.Refund(p))
  }

  lemma {:induction false} CallUsage(c: Config, s: State, e: Event, s': State)
    requires CallStep(c, s, e, s')
    ensures UsageMoves(c, s, e, s')
  {
    hide Admits, Counts.Charge, Counts.Refund;
  }

  lemma {:induction false} SendUsage(c: Config, s: State, e: Event, s': State)
    requires SendStep(c, s, e, s')
    ensures UsageMoves(c, s, e, s')
  {
    hide Admits, Counts.Charge, Counts.Refund, FramePermit, HasRoom;
  }

  lemma {:induction false} HandleUsage(c: Config, s: State, e: Event, s': State)
    requires HandleStep(c, s, e, s')
    ensures UsageMoves(c, s, e, s')
  {
    hide Admits, Counts.Charge, Counts.Refund;
  }

  lemma {:induction false} DriverUsage(c: Config, s: State, e: Event, s': State)
    requires DriverStep(s, e, s')
    ensures UsageMoves(c, s, e, s')
  {
    hide Admits, Counts.Charge, Counts.Refund;
  }

  lemma {:induction false} WriteUsage(c: Config, s: State, e: Event, s': State)
    requires WriteStep(s, e, s')
    ensures UsageMoves(c, s, e, s')
  {
    hide Admits, Counts.Charge, Counts.Refund;
  }

  lemma {:induction false} WindUpUsage(c: Config, s: State, e: Event, s': State)
    requires WindUpStep(s, e, s')
    ensures UsageMoves(c, s, e, s')
  {
    hide Admits, Counts.Charge, Counts.Refund;
  }

  lemma {:induction false} StepUsage(c: Config, s: State, e: Event, s': State)
    requires Step(c, s, e, s')
    ensures UsageMoves(c, s, e, s')
  {
    hide CallStep, SendStep, HandleStep, DriverStep, WriteStep, WindUpStep, UsageMoves;
    if CallStep(c, s, e, s') {
      CallUsage(c, s, e, s');
    } else if SendStep(c, s, e, s') {
      SendUsage(c, s, e, s');
    } else if HandleStep(c, s, e, s') {
      HandleUsage(c, s, e, s');
    } else if DriverStep(s, e, s') {
      DriverUsage(c, s, e, s');
    } else if WriteStep(s, e, s') {
      WriteUsage(c, s, e, s');
    } else {
      WindUpUsage(c, s, e, s');
    }
  }

  ghost predicate Balanced(c: Config, s: State) {
    && (forall g :: s.ledger.usage.At(g) == Held(s, g))
    && WithinLimits(s.ledger.usage, c.limits)
  }

  lemma {:induction false} StepBalanced(c: Config, s: State, e: Event, s': State)
    requires CloseInv(s) && Step(c, s, e, s') && Balanced(c, s)
    ensures Balanced(c, s')
  {
    hide CloseInv, Step, Held, Counts.At, Counts.Charge, Counts.Refund, Admits, SharedHeld, SharedChange, Wanted;
    var u, u' := s.ledger.usage, s'.ledger.usage;
    forall g ensures u'.At(g) == Held(s', g) {
      StepAccounts(c, s, e, s', g);
    }
    StepUsage(c, s, e, s');
    if u' != u {
      if Wanted(s, e).Some? && Admits(c.limits, u, Wanted(s, e).value) && u' == u.Charge(Wanted(s, e).value) {
        AdmitsExactly(c.limits, u, Wanted(s, e).value);
      } else {
        var p :| u' == u.Refund(p);
        forall g ensures 0 <= u'.At(g) <= c.limits.At(g) {
          ChargeAt(u, p, g);
          assert 0 <= u.At(g) <= c.limits.At(g);
        }
      }
    }
  }

  /** In every state of every run, each counter of the session's budget is exactly what is held, and
      within its limit: it never underflows and never exceeds. */
  lemma {:induction false} RunBalanced(c: Config, run: seq<State>, events: seq<Event>, k: nat)
    requires Run(c, run, events) && k < |run| && WithinLimits(NOTHING, c.limits)
    ensures Balanced(c, run[k])
  {
    hide CloseInv, Step;
    if k > 0 {
      RunBalanced(c, run, events, k - 1);
      RunKeeps(c, run, events, k - 1);
      assert StepAt(c, run, events, k - 1);
      StepBalanced(c, run[k - 1], events[k - 1], run[k]);
    }
  }

  // ----- what follows from the balance

  lemma {:induction false} HoldMember(ts: seq<Thread>, i: nat, g: Gauge)
    requires i < |ts|
    ensures ThreadsHold(ts, false, g) >= Holding(ts[i], false, g)
  {
    hide Holding;
    if i < |ts| - 1 {
      HoldMember(ts[..|ts| - 1], i, g);
    }
  }

  /** The permit of a queued frame is of its lane and of its size. */
  predicate PermitFits(item: Item, data: bool) {
    item.permit == Permit(if data then Data else Control, |Wire(item.frame)|)
  }

  lemma {:induction false} ItemPermit(received: seq<Frame>, ts: seq<Thread>, item: Item)
    requires ItemFits(ts, item) && ThreadTraced(received, ts[item.from])
    ensures PermitFits(item, item.frame.Message?)
  {
    hide Wire;
  }

  function Bytes(items: seq<Item>): nat {
    if items == [] then 0 else |Wire(items[0].frame)| + Bytes(items[1..])
  }

  function MessagesGauge(data: bool): Gauge {
    if data then QueuedMessages else ControlMessages
  }

  function BytesGauge(data: bool): Gauge {
    if data then QueuedBytes else ControlBytes
  }

  lemma {:induction false} LaneHolds(items: seq<Item>, data: bool)
    requires forall k :: 0 <= k < |items| ==> PermitFits(items[k], data)
    ensures ItemsHold(items, MessagesGauge(data)) == |items|
    ensures ItemsHold(items, BytesGauge(data)) == Bytes(items)
  {
    hide Wire;
    if items != [] {
      assert PermitFits(items[0], data);
      LaneHolds(items[1..], data);
    }
  }

  function Queue(out: Output, data: bool): seq<Item> {
    if data then out.data else out.control
  }

  lemma {:induction false} QueuePermits(c: Config, run: seq<State>, events: seq<Event>, k: nat, data: bool)
    requires Run(c, run, events) && k < |run|
    ensures var items := Queue(run[k].out, data);
            && ItemsHold(items, MessagesGauge(data)) == |items|
            && ItemsHold(items, BytesGauge(data)) == Bytes(items)
  {
    hide Run, CloseInv, ItemsHold, PermitFits, ThreadTraced, Lane;
    var s := run[k];
    var items := Queue(s.out, data);
    RunTraced(c, run, events, k);
    RunSourced(c, run, events, k);
    RunKeepsLanes(c, run, events, k);
    forall j | 0 <= j < |items| ensures PermitFits(items[j], data) {
      assert ItemFits(s.threads, items[j]);
      ItemPermit(s.log.received, s.threads, items[j]);
    }
    LaneHolds(items, data);
  }

  /** A frame that got its permits always finds a free slot: `try_send` fails only because the writer
      has gone. */
  lemma {:induction false} AdmissionImpliesRoom(c: Config, run: seq<State>, events: seq<Event>, k: nat, i: nat)
    requires Run(c, run, events) && k < |run| && WithinLimits(NOTHING, c.limits)
    requires SendingAt(run[k], i, Both)
    ensures HasRoom(c, run[k].out, run[k].threads[i]) <==> !Destroying(run[k].out.writer)
  {
    hide Run, Wire, ItemsHold, ThreadsHold;
    var s := run[k];
    var data := s.threads[i].task.Call?;
    var g := MessagesGauge(data);
    RunBalanced(c, run, events, k);
    QueuePermits(c, run, events, k, data);
    HoldMember(s.threads, i, g);
    assert s.ledger.usage.At(g) == Held(s, g) && s.ledger.usage.At(g) <= c.limits.At(g);
  }

  /** The bytes of one lane that the session retains: queued, picked, or buffered in the sink. */
  function Retained(s: State, data: bool): nat {
    Bytes(Queue(s.out, data))
    + (if s.out.writer.Picked? && s.out.writer.item.frame.Message? == data then |Wire(s.out.writer.item.frame)| else 0)
    + (if s.out.sink.Some? && s.out.sink.value.frame.Message? == data then |Wire(s.out.sink.value.frame)| else 0)
  }

  /** At every step, cancelled and timed-out writes and the abort of the writer included, what is
      retained is covered by permits of the session's own budget and of the shared one. */
  lemma {:induction false} RetainedBytesCovered(c: Config, run: seq<State>, events: seq<Event>, k: nat, data: bool)
    requires Run(c, run, events) && k < |run| && WithinLimits(NOTHING, c.limits)
    ensures Retained(run[k], data) <= run[k].ledger.usage.At(BytesGauge(data)) <= c.limits.At(BytesGauge(data))
    ensures Retained(run[k], data) <= SharedHeld(run[k], BytesGauge(data))
  {
    hide Run, Wire, ItemsHold, ThreadsHold, Bytes, Lane, ThreadTraced, Linked, Typed, UniqueIds, Tasks;
    var s := run[k];
    var g := BytesGauge(data);
    RunTraced(c, run, events, k);
    RunSourced(c, run, events, k);
    RunKeepsLanes(c, run, events, k);
    RunBalanced(c, run, events, k);
    QueuePermits(c, run, events, k, data);
    HalfIsPart(s.threads, g);
    assert s.ledger.usage.At(g) == Held(s, g) && s.ledger.usage.At(g) <= c.limits.At(g);
    if s.out.writer.Picked? {
      ItemPermit(s.log.received, s.threads, s.out.writer.item);
    }
    if s.out.sink.Some? {
      ItemPermit(s.log.received, s.threads, s.out.sink.value);
    }
  }

  /** Exchanges that have reserved and not yet registered. */
  function Reserving(ts: seq<Thread>): nat {
    if ts == [] then 0
    else Reserving(ts[..|ts| - 1]) + if ts[|ts| - 1].pc.RequestOwn? || ts[|ts| - 1].pc.RequestBoth? then 1 else 0
  }

  lemma {:induction false} ReservingHold(ts: seq<Thread>)
    ensures ThreadsHold(ts, false, PendingRequests) == Reserving(ts)
  {
    hide Wire;
    if ts != [] {
      ReservingHold(ts[..|ts| - 1]);
    }
  }

  lemma {:induction false} NoRequestsQueued(items: seq<Item>)
    requires forall k :: 0 <= k < |items| ==> items[k].permit.resource != Request
    ensures ItemsHold(items, PendingRequests) == 0
  {
    if items != [] {
      NoRequestsQueued(items[1..]);
    }
  }

  /** Request permits are the pending entries, those being failed by `finish_close`, and the exchanges
      between reserving and registering. */
  lemma {:induction false} RequestsCounted(c: Config, run: seq<State>, events: seq<Event>, k: nat)
    requires Run(c, run, events) && k < |run| && WithinLimits(NOTHING, c.limits)
    ensures var s := run[k];
            s.ledger.usage.requests == |s.book.pending| + |s.book.draining| + Reserving(s.threads)
  {
    hide Run, Wire, ItemsHold, ThreadsHold, Reserving;
    var s := run[k];
    RunBalanced(c, run, events, k);
    RunQueuePermits(c, run, events, k);
    ReservingHold(s.threads);
    NoRequestsQueued(s.out.data);
    NoRequestsQueued(s.out.control);
    assert s.ledger.usage.At(PendingRequests) == Held(s, PendingRequests);
  }

  /** Every permit in the queues or with the writer is a data or control permit. */
  ghost predicate FramePermits(out: Output) {
    && (forall j :: 0 <= j < |out.data| ==> out.data[j].permit.resource in {Data, Control})
    && (forall j :: 0 <= j < |out.control| ==> out.control[j].permit.resource in {Data, Control})
    && (WriterPermit(out.writer).Some? ==> WriterPermit(out.writer).value.resource in {Data, Control})
  }

  lemma {:induction false} StepFramePermits(c: Config, s: State, e: Event, s': State)
    requires Step(c, s, e, s') && FramePermits(s.out)
    ensures FramePermits(s'.out)
  {
    hide CallStep, HandleStep, ReadStep, CloseStep, SendStep, WriteStep, WindUpStep, Wire;
    if CallStep(c, s, e, s') || HandleStep(c, s, e, s') {
      CallLeavesLanes(c, s, e, s');
    } else if SendStep(c, s, e, s') {
      if Pushes(c, s, e) {
        PushAppends(c, s, e, s');
      } else {
        SendLeavesLanes(c, s, e, s');
      }
    } else if ReadStep(s, e, s') {
      ReadLeavesLanes(s, e, s');
    } else if CloseStep(s, e, s') {
      CloseLeavesLanes(s, e, s');
    } else {
      WriterFramePermits(s, e, s');
    }
  }

  lemma {:induction false} WriteFramePermits(s: State, e: Event, s': State)
    requires WriteStep(s, e, s') && FramePermits(s.out)
    ensures FramePermits(s'.out)
  {
    hide Released, Wire, FramePermit;
  }

  lemma {:induction false} WindUpFramePermits(s: State, e: Event, s': State)
    requires WindUpStep(s, e, s') && FramePermits(s.out)
    ensures FramePermits(s'.out)
  {
    hide Released, Wire, FramePermit;
  }

  lemma {:induction false} WriterFramePermits(s: State, e: Event, s': State)
    requires WriterStep(s, e, s') && FramePermits(s.out)
    ensures FramePermits(s'.out)
  {
    hide WriteStep, WindUpStep, FramePermits;
    if WriteStep(s, e, s') {
      WriteFramePermits(s, e, s');
    } else {
      WindUpFramePermits(s, e, s');
    }
  }

  lemma {:induction false} RunQueuePermits(c: Config, run: seq<State>, events: seq<Event>, k: nat)
    requires Run(c, run, events) && k < |run|
    ensures FramePermits(run[k].out)
  {
    hide Step;
    if k > 0 {
      RunQueuePermits(c, run, events, k - 1);
      assert StepAt(c, run, events, k - 1);
      StepFramePermits(c, run[k - 1], events[k - 1], run[k]);
    }
  }

  predicate Over(t: Thread) {
    t.pc.Ended? || t.pc.Finished?
  }

  lemma {:induction false} OverHoldsNothing(ts: seq<Thread>, half: bool, g: Gauge)
    requires forall k :: 0 <= k < |ts| ==> Over(ts[k]) && PcFits(ts[k])
    ensures ThreadsHold(ts, half, g) == 0
  {
    if ts != [] {
      assert Over(ts[|ts| - 1]) && PcFits(ts[|ts| - 1]);
      OverHoldsNothing(ts[..|ts| - 1], half, g);
    }
  }

  /** Nothing leaks: once a session is closed and its exchanges have ended, its counters are all zero,
      and of the shared budget it holds only what is being returned. */
  lemma {:induction false} NothingLeaks(c: Config, run: seq<State>, events: seq<Event>, k: nat, g: Gauge)
    requires Run(c, run, events) && k < |run| && WithinLimits(NOTHING, c.limits)
    requires run[k].gate.closed && forall j :: 0 <= j < |run[k].threads| ==> Over(run[k].threads[j])
    ensures run[k].ledger.usage.At(g) == 0
    ensures SharedHeld(run[k], g) == Total(run[k].ledger.dropping, g)
  {
    hide Run, Counts.At, Linked, UniqueIds, Tasks, PcFits, ThreadsHold;
    RunKeeps(c, run, events, k);
    RunBalanced(c, run, events, k);
    OverHoldsNothing(run[k].threads, false, g);
    OverHoldsNothing(run[k].threads, true, g);
    assert run[k].ledger.usage.At(g) == Held(run[k], g);
  }
}
