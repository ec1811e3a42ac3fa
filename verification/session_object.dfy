/** The session as the object it is: its methods update the shared fields in place, and each critical section
    is one step of the state machine of module `Sessions`. */
module SessionObjects {
  import opened Texts
  import opened Frames
  import opened Resources
  import Sessions
  import opened SessionSettlement

  type Id = Sessions.Id
  type Thread = Sessions.Thread
  type Item = Sessions.Item

  /** What `finish_close` does to an exchange that was still pending. */
  function SettledClosed(t: Thread): Thread {
    if t.task.Call? && !t.pc.Ended? then t.(task := t.task.(slot := Some(Sessions.Failed(Sessions.SessionClosed))))
    else t
  }

  /** The exchanges in `failed` are settled, and no other thread has changed. */
  ghost predicate SettledExactly(before: seq<Thread>, ts: seq<Thread>, failed: set<nat>) {
    && |ts| == |before|
    && forall k :: 0 <= k < |ts| ==> ts[k] == if k in failed then SettledClosed(before[k]) else before[k]
  }

  lemma {:induction false} NoneSettled(before: seq<Thread>)
    ensures SettledExactly(before, before, {})
  {
  }

  lemma {:induction false} OneMoreSettled(before: seq<Thread>, ts: seq<Thread>, ts': seq<Thread>,
                                          failed: set<nat>, i: nat)
    requires SettledExactly(before, ts, failed) && SettledExactly(ts, ts', {i})
    ensures SettledExactly(before, ts', failed + {i})
  {
  }

  lemma {:induction false} OneLess(m: map<Id, nat>, id: Id)
    requires id in m
    ensures |m - {id}| == |m| - 1 && m.Values == (m - {id}).Values + {m[id]}
  {
    var rest := m - {id};
    assert m == rest[id := m[id]];
    forall v | v in m.Values ensures v in rest.Values + {m[id]} {
      var x :| x in m && m[x] == v;
      assert x != id ==> x in rest && rest[x] == v;
    }
  }

  lemma {:induction false} ShutIsStep(s: Sessions.State)
    ensures Sessions.CloseStep(s, Sessions.Close, s.(gate := Sessions.Shut(s.gate)))
  {
  }

  lemma {:induction false} NotifyIsStep(s: Sessions.State)
    requires s.gate.notifying
    ensures Sessions.CloseStep(s, Sessions.Notify, s.(gate := s.gate.(notifying := false, closeAsked := true)))
  {
  }

  lemma {:induction false} StartIsStep(s: Sessions.State)
    requires s.out.writer.Picked?
    ensures Sessions.WriteStep(s, Sessions.StartWrite, Sessions.AfterStartWrite(s))
  {
    hide Sessions.AfterStartWrite;
  }

  lemma {:induction false} WrittenIsStep(s: Sessions.State)
    requires s.out.writer.Writing? && s.out.sink.None?
    ensures Sessions.WriteStep(s, Sessions.Written,
                               s.(out := s.out.(writer := Sessions.Polling),
                                  ledger := Sessions.Released(s.ledger, s.out.writer.item.permit)))
  {
    hide Sessions.Released;
  }

  lemma {:induction false} FailIsStep(s: Sessions.State, id: Id)
    requires s.driver.Draining? && id in s.book.draining
    ensures Sessions.CloseStep(s, Sessions.FailPending(id),
                               s.(threads := Sessions.Completed(s.threads, s.book.draining[id],
                                                                Sessions.Failed(Sessions.SessionClosed)),
                                  book := s.book.(draining := s.book.draining - {id}),
                                  ledger := Sessions.Released(s.ledger, Sessions.REQUEST)))
  {
    hide Sessions.Released, Sessions.Completed;
  }

  lemma {:induction false} InsertIsStep(c: Sessions.Config, s: Sessions.State, i: nat)
    requires Sessions.CallAt(s, i, Sessions.RequestBoth)
    ensures Sessions.CallStep(c, s, Sessions.Insert(i), Sessions.AfterInsert(s, i))
  {
    hide Sessions.AfterInsert;
  }

  lemma {:induction false} CleanUpIsStep(c: Sessions.Config, s: Sessions.State, i: nat)
    requires i < |s.threads| && s.threads[i].task.Call? && s.threads[i].pc.Cleanup?
    ensures Sessions.CallStep(c, s, Sessions.CleanUp(i), Sessions.AfterCleanUp(s, i))
  {
    hide Sessions.AfterCleanUp;
  }

  lemma {:induction false} DrainIsStep(s: Sessions.State, s': Sessions.State)
    requires s.driver.Finishing?
    requires s' == s.(gate := s.gate.(open := false), book := Sessions.Book(map[], s.book.pending),
                      driver := Sessions.Draining)
    ensures Sessions.CloseStep(s, Sessions.Drain, s')
  {
  }

  function Started(s: Sessions.State, id: Id, payload: Text, arrival: nat): Sessions.State {
    var t := Sessions.Thread(Sessions.Handle(id, payload, arrival, None, Nak(id, None), false), false,
                             Sessions.Admitting);
    s.(threads := s.threads + [t], driver := Sessions.Handling(|s.threads|))
  }

  function QueuedControl(s: Sessions.State, i: nat, item: Item): Sessions.State
    requires i < |s.threads| && !s.threads[i].task.Call?
  {
    s.(threads := s.threads[i := Sessions.Through(s.threads[i], true)],
       out := s.out.(control := s.out.control + [item]),
       driver := Sessions.Resumed(s.driver, i),
       ledger := Sessions.AfterTask(s.ledger, s.threads[i]),
       log := s.log.(queuedControl := s.log.queuedControl + [item.frame]))
  }

  lemma {:induction false} PushedControl(c: Sessions.Config, s: Sessions.State, i: nat, item: Item)
    requires Sessions.SendingAt(s, i, Sessions.Both) && !s.threads[i].task.Call?
    requires item == Sessions.Item(Sessions.Outgoing(s.threads[i]), Sessions.QueuePermit(s.threads[i]), i)
    ensures Sessions.AfterPush(c, s, i)
            == if Sessions.HasRoom(c, s.out, s.threads[i]) then QueuedControl(s, i, item)
               else Sessions.SetPc(s, i, Sessions.GivingUp(s.threads[i], Sessions.Overloaded))
                    .(ledger := Sessions.Released(s.ledger, item.permit))
  {
    hide Sessions.Outgoing, Sessions.QueuePermit, Sessions.HasRoom, Sessions.Released, Sessions.GivingUp,
         Sessions.AfterTask;
  }

  class Session {
    const config: Sessions.Config
    var open: bool
    var notifying: bool
    var closeAsked: bool
    var closed: bool
    var ended: bool
    var pending: map<Id, nat>
    var draining: map<Id, nat>
    var threads: seq<Thread>
    var data: seq<Item>
    var control: seq<Item>
    var writer: Sessions.Writer
    var sink: Option<Item>
    var stop: bool
    var driver: Sessions.Driver
    var usage: Counts
    var dropping: seq<Permit>
    var frames: nat
    var ignored: nat
    ghost var log: Sessions.Log

    ghost function View(): Sessions.State
      reads this
    {
      Sessions.State(
        Sessions.Gate(open, notifying, closeAsked, closed, ended), Sessions.Book(pending, draining), threads,
        Sessions.Output(data, control, writer, sink, stop), driver,
        Sessions.Ledger(usage, dropping), Sessions.Counters(frames, ignored), log)
    }

    constructor (config: Sessions.Config)
      ensures this.config == config && View() == Sessions.InitialState()
    {
      this.config := config;
      open, notifying, closeAsked, closed, ended := true, false, false, false, false;
      pending, draining, threads := map[], map[], [];
      data, control, writer, sink, stop := [], [], Sessions.Polling, None, false;
      driver, usage, dropping := Sessions.Selecting, NOTHING, [];
      frames, ignored := 0, 0;
      log := Sessions.Log([], [], [], [], [], [], []);
    }

    /** The swap in `close`: only one caller ever finds the session open. */
    method Swap() returns (was: bool)
      modifies this`open, this`notifying
      ensures was == old(open) && Sessions.CloseStep(old(View()), Sessions.Close, View())
      ensures View() == old(View()).(gate := Sessions.Shut(old(View()).gate))
    {
      hide Sessions.CloseStep;
      ShutIsStep(View());
      was := open;
      notifying := notifying || open;
      open := false;
    }

    /** `notify_one`: the notification is stored until the read loop takes it. */
    method Notify()
      requires notifying
      modifies this`notifying, this`closeAsked
      ensures Sessions.CloseStep(old(View()), Sessions.Notify, View())
      ensures View() == old(View()).(gate := old(View()).gate.(notifying := false, closeAsked := true))
    {
      hide Sessions.CloseStep;
      NotifyIsStep(View());
      notifying := false;
      closeAsked := true;
    }

    /** `close`: the caller that clears `open` stores the notification; for every other one it does nothing. */
    method Close()
      requires !notifying
      modifies this`open, this`notifying, this`closeAsked
      ensures !open && (old(open) ==> closeAsked) && (!old(open) ==> View() == old(View()))
      ensures View() == old(View()).(gate := old(View()).gate.(open := false, closeAsked := closeAsked))
    {
      hide Sessions.CloseStep;
      var was := Swap();
      if was {
        Notify();
      }
    }

    method Release(permit: Permit)
      modifies this`usage, this`dropping
      ensures Sessions.Ledger(usage, dropping) == Sessions.Released(Sessions.Ledger(old(usage), old(dropping)), permit)
    {
      usage := usage.Refund(permit);
      dropping := dropping + [permit];
    }

    method SetPc(i: nat, pc: Sessions.Pc)
      requires i < |threads|
      modifies this`threads
      ensures threads == old(threads)[i := old(threads)[i].(pc := pc)]
    {
      threads := threads[i := threads[i].(pc := pc)];
    }

    /** `exchange`, inside the lock of `pending`: `open` is checked and the entry inserted in one section. */
    method Insert(i: nat)
      requires Sessions.CallAt(View(), i, Sessions.RequestBoth)
      modifies this
      ensures Sessions.CallStep(config, old(View()), Sessions.Insert(i), View())
    {
      hide Sessions.CallStep, Sessions.Released;
      InsertIsStep(config, View(), i);
      if !open {
        SetPc(i, Sessions.Ended(Sessions.Failed(Sessions.NotOpen)));
        Release(Sessions.REQUEST);
        return;
      }
      pending := pending[threads[i].task.id := i];
      SetPc(i, Sessions.Sending(Sessions.Start));
    }

    /** `take_pending`: the entry leaves the map, and its permits are dropped. */
    method TakePending(id: Id) returns (sender: Option<nat>)
      modifies this`pending, this`usage, this`dropping
      ensures sender == if id in old(pending) then Some(old(pending)[id]) else None
      ensures pending == old(pending) - {id}
      ensures Sessions.Ledger(usage, dropping)
              == var before := Sessions.Ledger(old(usage), old(dropping));
                 if id in old(pending) then Sessions.Released(before, Sessions.REQUEST) else before
    {
      if id !in pending {
        assert pending - {id} == pending;
        return None;
      }
      sender := Some(pending[id]);
      pending := pending - {id};
      Release(Sessions.REQUEST);
    }

    /** `PendingCleanup::drop`. */
    method CleanUp(i: nat)
      requires i < |threads| && threads[i].task.Call? && threads[i].pc.Cleanup?
      modifies this
      ensures Sessions.CallStep(config, old(View()), Sessions.CleanUp(i), View())
    {
      hide Sessions.CallStep, Sessions.Released;
      CleanUpIsStep(config, View(), i);
      var sender := TakePending(threads[i].task.id);
      assert sender.None? ==> pending == old(pending);
      SetPc(i, Sessions.Ended(threads[i].pc.outcome));
    }

    /** The frame is not queued: its permits are dropped with it. */
    method Refuse(i: nat, permit: Permit)
      requires i < |threads|
      modifies this`threads, this`usage, this`dropping
      ensures var t := old(threads)[i];
              threads == old(threads)[i := t.(pc := Sessions.GivingUp(t, Sessions.Overloaded))]
      ensures Sessions.Ledger(usage, dropping) == Sessions.Released(Sessions.Ledger(old(usage), old(dropping)), permit)
    {
      SetPc(i, Sessions.GivingUp(threads[i], Sessions.Overloaded));
      Release(permit);
    }

    method PushData(i: nat, item: Item)
      requires Sessions.SendingAt(View(), i, Sessions.Both) && threads[i].task.Call?
      requires item == Sessions.Item(Sessions.Outgoing(threads[i]), Sessions.QueuePermit(threads[i]), i)
      modifies this
      ensures View() == Sessions.AfterPush(config, old(View()), i)
    {
      hide Sessions.Outgoing, Sessions.QueuePermit, Sessions.Capacity, Sessions.Released, Sessions.GivingUp;
      var t := threads[i];
      if !writer.Dropping? && !writer.Gone? && |data| < Sessions.Capacity(config.limits.queued) {
        data := data + [item];
        log := log.(queuedData := log.queuedData + [item.frame]);
        threads := threads[i := Sessions.Thread(t.task, true, Sessions.Waiting)];
      } else {
        Refuse(i, item.permit);
      }
    }

    method AppendControl(item: Item)
      modifies this`control, this`log
      ensures View() == old(View()).(out := old(View()).out.(control := old(View()).out.control + [item]),
                                     log := old(View()).log.(queuedControl := old(View()).log.queuedControl
                                                                              + [item.frame]))
    {
      control := control + [item];
      log := log.(queuedControl := log.queuedControl + [item.frame]);
    }

    /** The task of a reply ends with it, and its permits are dropped. */
    method EndTask(i: nat)
      requires i < |View().threads| && !View().threads[i].task.Call?
      modifies this`threads, this`driver, this`usage, this`dropping
      ensures var s := old(View());
              View() == s.(threads := s.threads[i := Sessions.Through(s.threads[i], true)],
                           driver := Sessions.Resumed(s.driver, i),
                           ledger := Sessions.AfterTask(s.ledger, s.threads[i]))
    {
      hide Sessions.Released, Sessions.Through, Sessions.TaskPermit;
      var t := threads[i];
      if t.task.Handle? && t.task.holds {
        Release(Sessions.TaskPermit(t));
      }
      threads := threads[i := Sessions.Through(t, true)];
      if driver == Sessions.Handling(i) {
        driver := Sessions.Selecting;
      }
    }

    /** There is room: the frame is queued and the thread is through. */
    method QueueControl(i: nat, item: Item)
      requires i < |View().threads| && !View().threads[i].task.Call?
      modifies this`control, this`log, this`threads, this`driver, this`usage, this`dropping
      ensures View() == QueuedControl(old(View()), i, item)
    {
      hide View, Sessions.AfterTask, Sessions.Through, Sessions.Resumed;
      AppendControl(item);
      EndTask(i);
    }

    method PushControl(i: nat, item: Item)
      requires Sessions.SendingAt(View(), i, Sessions.Both) && !threads[i].task.Call?
      requires item == Sessions.Item(Sessions.Outgoing(threads[i]), Sessions.QueuePermit(threads[i]), i)
      modifies this
      ensures View() == Sessions.AfterPush(config, old(View()), i)
    {
      hide Sessions.Outgoing, Sessions.QueuePermit, Sessions.Capacity, Sessions.Released, Sessions.AfterPush,
           Sessions.GivingUp, QueuedControl;
      PushedControl(config, View(), i, item);
      if !writer.Dropping? && !writer.Gone? && |control| < Sessions.Capacity(config.limits.control) {
        QueueControl(i, item);
      } else {
        Refuse(i, item.permit);
      }
    }

    /** The end of `enqueue`: a `try_send` into the lane of the frame. */
    method Push(i: nat)
      requires Sessions.SendingAt(View(), i, Sessions.Both)
      modifies this
      ensures Sessions.SendStep(config, old(View()), Sessions.Push(i), View())
    {
      hide Sessions.FramePermit, Sessions.FrameOf, Sessions.AfterPush;
      var item := Sessions.Item(Sessions.Outgoing(threads[i]), Sessions.QueuePermit(threads[i]), i);
      if threads[i].task.Call? {
        PushData(i, item);
      } else {
        PushControl(i, item);
      }
    }

    /** A frame is counted; the count is its arrival. */
    method CountFrame(frame: Frame) returns (arrival: nat)
      modifies this`frames, this`log
      ensures View() == Sessions.Logged(old(View()), frame) && arrival == old(View()).counters.frames + 1
    {
      frames := frames + 1;
      log := log.(received := log.received + [frame]);
      arrival := frames;
    }

    /** A received message gets a thread, and the read loop waits for it to be answered or spawned. */
    method StartHandling(id: Id, payload: Text, arrival: nat)
      modifies this`threads, this`driver
      ensures View() == Started(old(View()), id, payload, arrival)
    {
      driver := Sessions.Handling(|threads|);
      threads := threads + [Sessions.Thread(
        Sessions.Handle(id, payload, arrival, None, Nak(id, None), false), false, Sessions.Admitting)];
    }

    /** `handle_incoming` for a parsed frame, with `handle_ack`, `handle_nak` and the start of
        `handle_message`. The heartbeat slots are modelled in module `Heartbeats`. */
    method HandleIncoming(frame: Frame)
      requires View().driver.Selecting? && WellFormed(frame)
      modifies this
      ensures View() == Sessions.AfterReceive(old(View()), frame)
    {
      hide View, WellFormed, Sessions.Settling;
      var arrival := CountFrame(frame);
      match frame {
        case Heartbeat(_) =>
        case Ack(id, result) => Settle(id, Sessions.Acked(result, arrival));
        case Nak(id, problem) => Settle(id, Sessions.Refused(problem));
        case Message(id, payload) => StartHandling(id, payload, arrival);
      }
    }

    /** A frame that the read loop takes from the stream. */
    method ReadFrame(frame: Frame)
      requires View().driver.Selecting? && !View().gate.ended && WellFormed(frame)
      modifies this
      ensures Sessions.ReadStep(old(View()), Sessions.Receive(frame), View())
    {
      hide View, WellFormed, Sessions.AfterReceive;
      HandleIncoming(frame);
    }

    method Settle(id: Id, outcome: Sessions.Outcome)
      modifies this`pending, this`usage, this`dropping, this`driver, this`ignored
      ensures View() == Sessions.Settling(old(View()), id, outcome)
    {
      var sender := TakePending(id);
      if sender.Some? {
        driver := Sessions.Delivering(sender.value, outcome);
      } else {
        assert pending == old(pending);
        ignored := ignored + 1;
      }
    }

    method Complete(i: nat, outcome: Sessions.Outcome)
      modifies this`threads
      ensures threads == Sessions.Completed(old(threads), i, outcome)
    {
      if i < |threads| && threads[i].task.Call? && !threads[i].pc.Ended? {
        threads := threads[i := threads[i].(task := threads[i].task.(slot := Some(outcome)))];
      }
    }

    // ----- one turn of the writer

    method PickControl()
      requires (writer.Polling? || writer.ControlEmpty?) && control != []
      modifies this
      ensures writer == Sessions.Picked(old(control)[0]) && control == old(control)[1..]
      ensures log == old(log).(picked := old(log).picked + [old(control)[0].frame])
      ensures View() == old(View()).(out := View().out, log := log)
      ensures data == old(data) && sink == old(sink) && stop == old(stop)
    {
      writer := Sessions.Picked(control[0]);
      log := log.(picked := log.picked + [control[0].frame]);
      control := control[1..];
    }

    method PickData()
      requires (writer.Polling? || writer.ControlEmpty?) && data != []
      modifies this
      ensures writer == Sessions.Picked(old(data)[0]) && data == old(data)[1..]
      ensures log == old(log).(picked := old(log).picked + [old(data)[0].frame])
      ensures View() == old(View()).(out := View().out, log := log)
      ensures control == old(control) && sink == old(sink) && stop == old(stop)
    {
      writer := Sessions.Picked(data[0]);
      log := log.(picked := log.picked + [data[0].frame]);
      data := data[1..];
    }

    /** The biased poll, undisturbed: a control frame if there is one, otherwise a data frame. */
    method PickNext() returns (picked: bool)
      requires writer.Polling?
      modifies this
      ensures picked <==> old(control) != [] || old(data) != []
      ensures picked ==> writer == Sessions.Picked((if old(control) != [] then old(control) else old(data))[0])
      ensures control == (if old(control) != [] then old(control)[1..] else [])
      ensures data == if picked && old(control) == [] then old(data)[1..] else old(data)
      ensures log == if picked then old(log).(picked := old(log).picked + [writer.item.frame]) else old(log)
      ensures View() == old(View()).(out := View().out, log := log) && sink == old(sink) && stop == old(stop)
      ensures !picked ==> View() == old(View())
    {
      picked := true;
      if control != [] {
        PickControl();
      } else if data != [] {
        PickData();
      } else {
        picked := false;
      }
    }

    /** A picked frame is handed to the sink, unless the session has been closed meanwhile. */
    method StartWrite()
      requires writer.Picked?
      modifies this
      ensures Sessions.WriteStep(old(View()), Sessions.StartWrite, View())
    {
      hide Sessions.WriteStep, Sessions.Released;
      StartIsStep(View());
      var item := writer.item;
      if open {
        writer := Sessions.Writing(item);
        sink := Some(item);
      } else {
        writer := Sessions.Ending(None);
        Release(item.permit);
        log := Sessions.DroppedFrame(log, item.frame);
      }
    }

    /** Only after the flush are the permits of the frame dropped. */
    method Written()
      requires writer.Writing? && sink.None?
      modifies this
      ensures Sessions.WriteStep(old(View()), Sessions.Written, View())
    {
      hide Sessions.WriteStep, Sessions.Released;
      WrittenIsStep(View());
      Release(writer.item.permit);
      writer := Sessions.Polling;
    }

    // ----- finish_close

    method Drain()
      requires driver.Finishing?
      modifies this`open, this`draining, this`pending, this`driver
      ensures Sessions.CloseStep(old(View()), Sessions.Drain, View())
      ensures !open && driver.Draining? && draining == old(pending) && pending == map[]
    {
      hide Sessions.CloseStep;
      open := false;
      draining := pending;
      pending := map[];
      driver := Sessions.Draining;
      DrainIsStep(old(View()), View());
    }

    method FailPending(id: Id)
      requires driver.Draining? && id in draining
      modifies this`threads, this`draining, this`usage, this`dropping
      ensures Sessions.CloseStep(old(View()), Sessions.FailPending(id), View())
      ensures SettledExactly(old(threads), threads, {old(draining)[id]})
      ensures draining == old(draining) - {id} && usage == old(usage).(requests := old(usage).requests - 1)
    {
      hide Sessions.CloseStep;
      FailIsStep(View(), id);
      Complete(draining[id], Sessions.Failed(Sessions.SessionClosed));
      draining := draining - {id};
      Release(Sessions.REQUEST);
    }

    /** Every exchange that was pending is settled with `SessionClosed` and no other is touched, all request
        permits are given back, and only then is `closed` published. */
    method FinishClose()
      requires driver.Finishing?
      modifies this
      ensures closed && !open && pending == map[] && draining == map[] && driver.Done?
      ensures SettledExactly(old(threads), threads, old(pending).Values)
      ensures usage == old(usage).(requests := old(usage).requests - |old(pending)|)
      ensures data == old(data) && control == old(control) && writer == old(writer) && sink == old(sink)
    {
      hide Sessions.CloseStep, SettledExactly, View;
      ghost var book, before := pending, threads;
      Drain();
      FailAll(book, before);
      closed := true;
      driver := Sessions.Done;
    }

    method FailAll(ghost book: map<Id, nat>, ghost before: seq<Thread>)
      requires driver.Draining? && draining == book && threads == before
      modifies this`threads, this`draining, this`usage, this`dropping
      ensures draining == map[] && SettledExactly(before, threads, book.Values)
      ensures usage == old(usage).(requests := old(usage).requests - |book|)
    {
      hide Sessions.CloseStep, SettledExactly, View;
      ghost var failed: set<nat> := {};
      NoneSettled(before);
      while draining != map[]
        invariant driver.Draining? && failed + draining.Values == book.Values
        invariant SettledExactly(before, threads, failed)
        invariant usage == old(usage).(requests := old(usage).requests - |book| + |draining|)
        decreases |draining|
      {
        var id :| id in draining;
        ghost var i, was := draining[id], threads;
        OneLess(draining, id);
        FailPending(id);
        OneMoreSettled(before, was, threads, failed, i);
        failed := failed + {i};
      }
    }
  }
}
