/** Every message received is answered once, unless the session closes. */
module SessionReplies {
  import opened Texts
  import opened Frames
  import opened Resources
  import opened Sessions
  import opened SessionClose
  import opened SessionSettlement
  import opened SessionHistory
  import opened SessionLanes
  import opened SessionOrigins
  import opened SessionConservation

  /** What has become of a received message: its reply was queued, its handling goes on, or the
      session closed first. */
  datatype Fate = Replied | Alive | GivenUp

  predicate Has(t: Thread, id: Id, fate: Fate) {
    && t.task.Handle? && t.task.id == id
    && (match fate
        case Replied => t.sent
        case Alive => !t.sent && !t.pc.Finished?
        case GivenUp => !t.sent && t.pc.Finished?)
  }

  function CountFate(ts: seq<Thread>, id: Id, fate: Fate): nat {
    if ts == [] then 0 else CountFate(ts[..|ts| - 1], id, fate) + One(Has(ts[|ts| - 1], id, fate))
  }

  /** The threads that handle a message with this id. */
  function CountHandled(ts: seq<Thread>, id: Id): nat {
    if ts == [] then 0
    else CountHandled(ts[..|ts| - 1], id) + One(ts[|ts| - 1].task.Handle? && ts[|ts| - 1].task.id == id)
  }

  lemma {:induction false} FatesAreAll(ts: seq<Thread>, id: Id)
    ensures CountHandled(ts, id) == CountFate(ts, id, Replied) + CountFate(ts, id, Alive) + CountFate(ts, id, GivenUp)
  {
    if ts != [] {
      FatesAreAll(ts[..|ts| - 1], id);
    }
  }

  /** The replies queued are those of the threads that replied. */
  lemma {:induction false} RepliesSent(received: seq<Frame>, ts: seq<Thread>, id: Id)
    requires forall k :: 0 <= k < |ts| ==> ThreadTraced(received, ts[k])
    ensures CountSent(ts, ReplyOf(id)) == CountFate(ts, id, Replied)
  {
    if ts != [] {
      assert ThreadTraced(received, ts[|ts| - 1]);
      RepliesSent(received, ts[..|ts| - 1], id);
    }
  }

  // ----- messages received are messages handled

  lemma {:induction false} HandledGrow(frames: nat, ts: seq<Thread>, ts': seq<Thread>, n: nat, id: Id)
    requires Grown(frames, ts, ts') && n <= |ts|
    ensures CountHandled(ts'[..n], id) == CountHandled(ts[..n], id)
  {
    if n > 0 {
      HandledGrow(frames, ts, ts', n - 1, id);
      assert ts[..n][..n - 1] == ts[..n - 1] && ts'[..n][..n - 1] == ts'[..n - 1];
      assert Evolves(ts[n - 1], ts'[n - 1]);
    }
  }

  /** How the list of received frames changes. */
  predicate Heard(s: State, e: Event, s': State) {
    || s'.log.received == s.log.received
    || (&& e.Receive? && s'.log.received == s.log.received + [e.frame]
        && (e.frame.Message? ==> |s'.threads| > |s.threads| && s'.threads[|s.threads|].task.Handle?))
  }

  lemma {:induction false} StepHears(c: Config, s: State, e: Event, s': State)
    requires Step(c, s, e, s')
    ensures Heard(s, e, s')
  {
    hide CallStep, SendStep, HandleStep, ReadStep, CloseStep, WriteStep, WindUpStep;
    if CallStep(c, s, e, s') || HandleStep(c, s, e, s') {
      ThreadsHearNothing(c, s, e, s');
    } else if SendStep(c, s, e, s') {
      SendsHearNothing(c, s, e, s');
    } else if ReadStep(s, e, s') {
      ReadHears(s, e, s');
    } else if CloseStep(s, e, s') {
      ClosingHearsNothing(s, e, s');
    } else {
      WriterQueuesNothing(s, e, s');
    }
  }

  lemma {:induction false} ThreadsHearNothing(c: Config, s: State, e: Event, s': State)
    requires CallStep(c, s, e, s') || HandleStep(c, s, e, s')
    ensures s'.log.received == s.log.received
  {
    hide Admits, QueuePermit, TaskPermit;
  }

  lemma {:induction false} SendsHearNothing(c: Config, s: State, e: Event, s': State)
    requires SendStep(c, s, e, s')
    ensures s'.log.received == s.log.received
  {
    hide Admits, QueuePermit, TaskPermit;
  }

  lemma {:induction false} ClosingHearsNothing(s: State, e: Event, s': State)
    requires CloseStep(s, e, s')
    ensures s'.log.received == s.log.received
  {
  }

  lemma {:induction false} ReadHears(s: State, e: Event, s': State)
    requires ReadStep(s, e, s')
    ensures Heard(s, e, s')
  {
  }

  lemma {:induction false} StepHandles(c: Config, s: State, e: Event, s': State, id: Id)
    requires CloseInv(s) && Traced(s) && Step(c, s, e, s')
    requires Count(s.log.received, MessageOf(id)) == CountHandled(s.threads, id)
    ensures Count(s'.log.received, MessageOf(id)) == CountHandled(s'.threads, id)
  {
    hide Step, CloseInv, ThreadTraced;
    StepHears(c, s, e, s');
    StepTraced(c, s, e, s');
    ThreadsGrow(c, s, e, s');
    Balanced(s.log.received, s.threads, e, s'.log.received, s'.threads, id);
  }

  lemma {:induction false} Balanced(received: seq<Frame>, ts: seq<Thread>, e: Event,
                                    received': seq<Frame>, ts': seq<Thread>, id: Id)
    requires Grown(|received|, ts, ts')
    requires received' == received
             || (&& e.Receive? && received' == received + [e.frame]
                 && (e.frame.Message? ==> |ts'| > |ts| && ts'[|ts|].task.Handle?))
    requires forall k :: 0 <= k < |ts'| ==> ThreadTraced(received', ts'[k])
    requires Count(received, MessageOf(id)) == CountHandled(ts, id)
    ensures Count(received', MessageOf(id)) == CountHandled(ts', id)
  {
    var n := |ts|;
    HandledGrow(|received|, ts, ts', n, id);
    assert ts[..n] == ts;
    if received' != received {
      CountAppend(received, e.frame, MessageOf(id));
    }
    if |ts'| == n {
      assert ts'[..n] == ts';
    } else {
      assert ts'[..|ts'| - 1] == ts'[..n];
      assert ThreadTraced(received', ts'[n]) && Newcomer(|received|, ts'[n]);
    }
  }

  // ----- nothing is given up while the session is open

  ghost predicate NoneGivenUp(ts: seq<Thread>) {
    forall k :: 0 <= k < |ts| && ts[k].pc.Finished? ==> ts[k].sent
  }

  ghost predicate Faithful(s: State) {
    s.gate.open ==> NoneGivenUp(s.threads) && s.log.dropped == []
  }

  lemma {:induction false} ThreadsGiveUp(c: Config, s: State, e: Event, s': State)
    requires CloseInv(s) && Traced(s) && (CallStep(c, s, e, s') || HandleStep(c, s, e, s')) && NoneGivenUp(s.threads)
    ensures s'.gate == s.gate && (s.gate.open ==> NoneGivenUp(s'.threads)) && s'.log == s.log
  {
    hide Admits, QueuePermit, TaskPermit, Tasks, Linked, UniqueIds, Typed, Traced, ThreadTraced, HandleStep;
    if CallStep(c, s, e, s') {
      if !e.Send? {
        CallTraced(c, s, e, s');
      }
    } else {
      HandleTraced(c, s, e, s');
    }
  }

  lemma {:induction false} SendsGiveUp(c: Config, s: State, e: Event, s': State)
    requires CloseInv(s) && SendStep(c, s, e, s') && NoneGivenUp(s.threads)
    ensures (s'.gate.open ==> NoneGivenUp(s'.threads)) && s'.log.dropped == s.log.dropped
  {
    hide Admits, QueuePermit, TaskPermit, Phases, Tasks, Linked, UniqueIds;
  }

  lemma {:induction false} ReadGivesUp(s: State, e: Event, s': State)
    requires ReadStep(s, e, s') && NoneGivenUp(s.threads)
    ensures NoneGivenUp(s'.threads) && s'.log.dropped == s.log.dropped
  {
  }

  lemma {:induction false} ClosingGivesUp(s: State, e: Event, s': State)
    requires CloseStep(s, e, s') && NoneGivenUp(s.threads)
    ensures NoneGivenUp(s'.threads) && s'.log.dropped == s.log.dropped
  {
  }

  lemma {:induction false} WriterGivesUp(s: State, e: Event, s': State)
    requires CloseInv(s) && WriterStep(s, e, s')
    ensures s.gate.open && s'.gate.open ==> s'.log.dropped == s.log.dropped
  {
  }

  lemma {:induction false} StepFaithful(c: Config, s: State, e: Event, s': State)
    requires CloseInv(s) && Traced(s) && Step(c, s, e, s') && Faithful(s)
    ensures Faithful(s')
  {
    hide CallStep, SendStep, HandleStep, ReadStep, CloseStep, WriteStep, WindUpStep, CloseInv, Traced;
    GateMoves(c, s, e, s');
    if s.gate.open {
      if CallStep(c, s, e, s') || HandleStep(c, s, e, s') {
        ThreadsGiveUp(c, s, e, s');
      } else if SendStep(c, s, e, s') {
        SendsGiveUp(c, s, e, s');
      } else if ReadStep(s, e, s') {
        ReadGivesUp(s, e, s');
      } else if CloseStep(s, e, s') {
        ClosingGivesUp(s, e, s');
      } else {
        WriterKeepsThreads(s, e, s');
        WriterGivesUp(s, e, s');
      }
    }
  }

  lemma {:induction false} RunHandles(c: Config, run: seq<State>, events: seq<Event>, k: nat, id: Id)
    requires Run(c, run, events) && k < |run|
    ensures Count(run[k].log.received, MessageOf(id)) == CountHandled(run[k].threads, id)
    ensures Faithful(run[k])
  {
    hide Step, CloseInv, Traced;
    if k > 0 {
      RunHandles(c, run, events, k - 1, id);
      RunTraced(c, run, events, k - 1);
      assert StepAt(c, run, events, k - 1);
      StepHandles(c, run[k - 1], events[k - 1], run[k], id);
      StepFaithful(c, run[k - 1], events[k - 1], run[k]);
    }
  }

  // ----- the balance

  lemma {:induction false} NoReplyAmongData(fs: seq<Frame>, id: Id)
    requires forall k :: 0 <= k < |fs| ==> fs[k].Message?
    ensures Count(fs, ReplyOf(id)) == 0
  {
    if fs != [] {
      NoReplyAmongData(fs[..|fs| - 1], id);
    }
  }

  lemma {:induction false} NoReplyInDataQueue(items: seq<Item>, id: Id)
    requires forall k :: 0 <= k < |items| ==> items[k].frame.Message?
    ensures CountItems(items, ReplyOf(id)) == 0
  {
    if items != [] {
      NoReplyInDataQueue(items[1..], id);
    }
  }

  lemma {:induction false} NoneOf(ts: seq<Thread>, id: Id, fate: Fate)
    requires forall k :: 0 <= k < |ts| ==> !Has(ts[k], id, fate)
    ensures CountFate(ts, id, fate) == 0
  {
    if ts != [] {
      NoneOf(ts[..|ts| - 1], id, fate);
    }
  }

  /** Replies on their way out: queued for writing, with the writer, written. */
  function RepliesUnderWay(s: State, id: Id): nat {
    CountItems(s.out.control, ReplyOf(id)) + CountWriter(s.out, ReplyOf(id)) + Count(s.log.wire, ReplyOf(id))
  }

  /** For every id, the messages received are the replies queued, those still being handled, and those
      given up because the session closed; while it is open none is given up and no reply is dropped,
      and when it is closed none is still being handled. */
  lemma {:induction false} RepliesConserved(c: Config, run: seq<State>, events: seq<Event>, k: nat, id: Id)
    requires Run(c, run, events) && k < |run|
    ensures var s := run[k];
            && Count(s.log.received, MessageOf(id))
               == Count(s.log.queuedControl, ReplyOf(id))
                  + CountFate(s.threads, id, Alive) + CountFate(s.threads, id, GivenUp)
            && Count(s.log.queuedControl, ReplyOf(id)) == RepliesUnderWay(s, id) + Count(s.log.dropped, ReplyOf(id))
            && (s.gate.open ==> CountFate(s.threads, id, GivenUp) == 0 && s.log.dropped == [])
            && (s.gate.closed ==> CountFate(s.threads, id, Alive) == 0)
  {
    var s := run[k];
    RunHandles(c, run, events, k, id);
    RunTraced(c, run, events, k);
    RunKeepsLanes(c, run, events, k);
    RunConserves(c, run, events, k, ReplyOf(id));
    FatesAreAll(s.threads, id);
    RepliesSent(s.log.received, s.threads, id);
    NoReplyAmongData(s.log.queuedData, id);
    NoReplyInDataQueue(s.out.data, id);
    if s.gate.open {
      NoneOf(s.threads, id, GivenUp);
    }
    if s.gate.closed {
      NoneOf(s.threads, id, Alive);
    }
  }

  /** While a session is open, every reply and every heartbeat whose thread is through has been queued: one
      that cannot be queued takes the session with it. */
  lemma {:induction false} MandatoryFrames(c: Config, run: seq<State>, events: seq<Event>, k: nat, i: nat)
    requires Run(c, run, events) && k < |run| && i < |run[k].threads| && run[k].threads[i].pc.Finished?
    ensures run[k].threads[i].sent || !run[k].gate.open
  {
    hide Step, Run;
    RunHandles(c, run, events, k, []);
  }

  // ----- who chose a refusal

  /** This step refuses the message of thread `i` without running a handler, and chooses this reply. */
  predicate Refuses(e: Event, i: nat, id: Id, reply: Frame) {
    && reply.Nak? && reply.id == id
    && (|| (e.Reject? && e.i == i && SameReply(e.nak, reply.problem))
        || (e.ReserveTask? && e.i == i && SameReply(Some(e.problem), reply.problem))
        || (e.ReserveTaskShared? && e.i == i && !e.granted && SameReply(Some(e.problem), reply.problem)))
  }

  /** A message that is being answered, or has been. */
  predicate Replying(t: Thread) {
    t.task.Handle? && Answered(t.pc) && (t.pc.Finished? ==> t.sent)
  }

  lemma {:induction false} HandleRefuses(c: Config, s: State, e: Event, s': State, i: nat)
    requires HandleStep(c, s, e, s') && i < |s.threads| == |s'.threads| && s.threads[i].task.Handle?
    requires !Answered(s.threads[i].pc) && !s.threads[i].sent
    requires Replying(s'.threads[i]) && s'.threads[i].task.result.None?
    ensures Refuses(e, i, s'.threads[i].task.id, s'.threads[i].task.reply)
  {
    hide Admits, Counts.Charge, Counts.Refund, ReplyTo;
  }

  lemma {:induction false} CallRefusesNothing(c: Config, s: State, e: Event, s': State, i: nat)
    requires CallStep(c, s, e, s') && i < |s.threads| && s.threads[i].task.Handle?
    ensures i < |s'.threads| && s'.threads[i] == s.threads[i]
  {
    hide Admits, Released, Taken, GivenBack, AfterTask;
  }

  lemma {:induction false} SendRefusesNothing(c: Config, s: State, e: Event, s': State, i: nat)
    requires SendStep(c, s, e, s') && i < |s.threads| && s.threads[i].task.Handle? && !Answered(s.threads[i].pc)
    ensures i < |s'.threads| && s'.threads[i] == s.threads[i]
  {
    hide Admits, Counts.Charge, Counts.Refund, FramePermit, HasRoom;
  }

  lemma {:induction false} DriverRefusesNothing(s: State, e: Event, s': State, i: nat)
    requires DriverStep(s, e, s') && i < |s.threads| && s.threads[i].task.Handle?
    ensures i < |s'.threads| && s'.threads[i] == s.threads[i]
  {
    hide Counts.Charge, Counts.Refund, WellFormed, AllHandled;
  }

  /** A message begins to be answered without a handler's result: this very step chose the answer. */
  lemma {:induction false} AnswerChosen(c: Config, s: State, e: Event, s': State, i: nat)
    requires CloseInv(s) && Traced(s) && Step(c, s, e, s') && i < |s.threads| && i < |s'.threads|
    requires s.threads[i].task.Handle? && !Answered(s.threads[i].pc)
    requires Replying(s'.threads[i]) && s'.threads[i].task.result.None?
    ensures Refuses(e, i, s'.threads[i].task.id, s'.threads[i].task.reply)
  {
    hide CallStep, SendStep, HandleStep, DriverStep, WriterStep, Phases, Tasks, Linked, UniqueIds, Traced, Refuses;
    assert PcFits(s.threads[i]);
    if CallStep(c, s, e, s') {
      CallRefusesNothing(c, s, e, s', i);
    } else if SendStep(c, s, e, s') {
      SendRefusesNothing(c, s, e, s', i);
    } else if DriverStep(s, e, s') {
      DriverRefusesNothing(s, e, s', i);
    } else if WriterStep(s, e, s') {
      WriterKeepsThreads(s, e, s');
    } else {
      HandleTraced(c, s, e, s');
      HandleRefuses(c, s, e, s', i);
    }
  }

  // ----- messages are queued once

  lemma {:induction false} NotSent(ts: seq<Thread>, id: Id)
    requires forall k :: 0 <= k < |ts| && ts[k].task.Call? ==> ts[k].task.id != id
    requires forall k :: 0 <= k < |ts| && ts[k].task.Handle? ==> !ts[k].task.reply.Message?
    ensures CountSent(ts, MessageOf(id)) == 0
  {
    if ts != [] {
      NotSent(ts[..|ts| - 1], id);
    }
  }

  lemma {:induction false} SentOnce(received: seq<Frame>, ts: seq<Thread>, id: Id)
    requires UniqueIds(ts) && forall k :: 0 <= k < |ts| ==> ThreadTraced(received, ts[k])
    ensures CountSent(ts, MessageOf(id)) <= 1
  {
    if ts != [] {
      var front, last := ts[..|ts| - 1], ts[|ts| - 1];
      assert ThreadTraced(received, last);
      if last.task.Call? && last.task.id == id {
        forall k | 0 <= k < |front| && front[k].task.Handle? ensures !front[k].task.reply.Message? {
          assert ThreadTraced(received, ts[k]);
        }
        NotSent(front, id);
      } else {
        SentOnce(received, front, id);
      }
    }
  }

  /** A message is written at most once, under every interleaving. */
  lemma {:induction false} WrittenOnce(c: Config, run: seq<State>, events: seq<Event>, k: nat, id: Id)
    requires Run(c, run, events) && k < |run|
    ensures Count(run[k].log.wire, MessageOf(id)) <= CountSent(run[k].threads, MessageOf(id)) <= 1
  {
    RunTraced(c, run, events, k);
    RunConserves(c, run, events, k, MessageOf(id));
    SentOnce(run[k].log.received, run[k].threads, id);
  }
}
