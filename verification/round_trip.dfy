/** From end to end: with room on both sides, every message gets to its handler, and what the handler makes of it
    gets back to the sender. */
module RoundTrips {
  import opened Texts
  import opened Frames
  import opened Resources
  import opened Sessions
  import SessionSettlement
  import opened SessionAdmission
  import opened SessionDelivery
  import opened SessionPermits
  import opened TwoSessions

  /** Pair steps that follow one another. */
  ghost predicate PairPath(ca: Config, cb: Config, run: seq<Pair>, events: seq<PairEvent>) {
    |run| == |events| + 1 && forall k :: 0 <= k < |events| ==> PairStepAt(ca, cb, run, events, k)
  }

  lemma {:induction false} PairPathOf(ca: Config, cb: Config, p: Pair, e: PairEvent, p': Pair)
    requires PairStep(ca, cb, p, e, p')
    ensures PairPath(ca, cb, [p, p'], [e])
  {
    hide PairStep;
    assert PairStepAt(ca, cb, [p, p'], [e], 0);
  }

  lemma {:induction false} PairJoined(ca: Config, cb: Config, run: seq<Pair>, events: seq<PairEvent>,
                                      more: seq<Pair>, steps: seq<PairEvent>)
    requires PairPath(ca, cb, run, events) && PairPath(ca, cb, more, steps) && run[|events|] == more[0]
    ensures PairPath(ca, cb, run + more[1..], events + steps)
    ensures (run + more[1..])[0] == run[0] && (run + more[1..])[|events| + |steps|] == more[|steps|]
  {
    hide PairStep;
    var r, es := run + more[1..], events + steps;
    assert forall m :: 0 <= m < |more| ==> r[|events| + m] == more[m];
    forall k | 0 <= k < |es| ensures PairStepAt(ca, cb, r, es, k) {
      if k < |events| {
        assert PairStepAt(ca, cb, run, events, k);
      } else {
        assert PairStepAt(ca, cb, more, steps, k - |events|);
      }
    }
  }

  /** Steps of one side that do not concern the links. */
  predicate Private(e: Event) {
    TypedEvent(e) && !e.Flush? && !e.Receive? && !e.ReceiveOversized? && !e.ReceiveInvalid?
  }

  predicate AllPrivate(events: seq<Event>) {
    forall k :: 0 <= k < |events| ==> Private(events[k])
  }

  /** What a path of one side is for the pair. */
  function OfA(p: Pair, run: seq<State>): (r: seq<Pair>)
    ensures |r| == |run| && forall k :: 0 <= k < |run| ==> r[k] == p.(a := run[k])
  {
    seq(|run|, k requires 0 <= k < |run| => p.(a := run[k]))
  }

  function ByA(events: seq<Event>): (r: seq<PairEvent>)
    ensures |r| == |events| && forall k :: 0 <= k < |events| ==> r[k] == AtA(events[k])
  {
    seq(|events|, k requires 0 <= k < |events| => AtA(events[k]))
  }

  lemma {:induction false} LiftA(ca: Config, cb: Config, p: Pair, run: seq<State>, events: seq<Event>)
    requires Path(ca, run, events) && AllPrivate(events)
    ensures PairPath(ca, cb, OfA(p, run), ByA(events))
  {
    hide Step, TypedEvent;
    forall k | 0 <= k < |events| ensures PairStepAt(ca, cb, OfA(p, run), ByA(events), k) {
      assert StepAt(ca, run, events, k) && Private(events[k]);
    }
  }

  function OfB(p: Pair, run: seq<State>): (r: seq<Pair>)
    ensures |r| == |run| && forall k :: 0 <= k < |run| ==> r[k] == p.(b := run[k])
  {
    seq(|run|, k requires 0 <= k < |run| => p.(b := run[k]))
  }

  function ByB(events: seq<Event>): (r: seq<PairEvent>)
    ensures |r| == |events| && forall k :: 0 <= k < |events| ==> r[k] == AtB(events[k])
  {
    seq(|events|, k requires 0 <= k < |events| => AtB(events[k]))
  }

  lemma {:induction false} LiftB(ca: Config, cb: Config, p: Pair, run: seq<State>, events: seq<Event>)
    requires Path(cb, run, events) && AllPrivate(events)
    ensures PairPath(ca, cb, OfB(p, run), ByB(events))
  {
    hide Step, TypedEvent;
    forall k | 0 <= k < |events| ensures PairStepAt(ca, cb, OfB(p, run), ByB(events), k) {
      assert StepAt(cb, run, events, k) && Private(events[k]);
    }
  }

  /** A frame in transit that is small enough and well formed is read as itself. */
  lemma {:induction false} ReadAsWritten(c: Config, f: Frame, link: Link)
    requires WellFormed(f) && |Wire(f)| <= c.maxMessage && link.transit == [f]
    ensures Arrives(c, Receive(f), link, link.(transit := []))
  {
    hide Wire, Parse, WellFormed;
    ParseWire(f);
  }

  /** The writer of side `a` puts the first frame of a lane on the link. */
  lemma {:induction false} WritesA(ca: Config, cb: Config, p: Pair, data: bool)
    returns (run: seq<Pair>, events: seq<PairEvent>)
    requires TurnBegins(p.a, data) && p.ab.up
    ensures PairPath(ca, cb, run, events) && run[0] == p
    ensures run[|events|] == p.(a := WrittenOut(p.a, data),
                                ab := p.ab.(transit := p.ab.transit + [Queue(p.a.out, data)[0].frame]))
  {
    hide Path, PairPath, PairStep, Step, WrittenOut;
    var picks := PickPath(ca, p.a, data);
    PicksArePrivate(data);
    LiftA(ca, cb, p, picks, PickSteps(data));
    var p1 := p.(a := InSink(p.a, data));
    var link := p.ab.(transit := p.ab.transit + [Queue(p.a.out, data)[0].frame]);
    var p2 := p.(a := Flushing(p.a, data), ab := link);
    var p3 := p.(a := WrittenOut(p.a, data), ab := link);
    FlushPath(ca, p.a, data);
    FlushA(ca, cb, p, data, p1, p2, p3);
    PathLength(ca, picks, PickSteps(data));
    run, events := OfA(p, picks), ByA(PickSteps(data));
    PairPathOf(ca, cb, p1, AtA(Flush), p2);
    PairPathOf(ca, cb, p2, AtA(Written), p3);
    PairJoined(ca, cb, run, events, [p1, p2], [AtA(Flush)]);
    run, events := run + [p1, p2][1..], events + [AtA(Flush)];
    PairJoined(ca, cb, run, events, [p2, p3], [AtA(Written)]);
    run, events := run + [p2, p3][1..], events + [AtA(Written)];
  }

  lemma {:induction false} PicksArePrivate(data: bool)
    ensures AllPrivate(PickSteps(data))
  {
  }

  lemma {:induction false} FlushA(ca: Config, cb: Config, p: Pair, data: bool, p1: Pair, p2: Pair, p3: Pair)
    requires TurnBegins(p.a, data) && p.ab.up
    requires Step(ca, InSink(p.a, data), Flush, Flushing(p.a, data))
    requires Step(ca, Flushing(p.a, data), Written, WrittenOut(p.a, data))
    requires p1 == p.(a := InSink(p.a, data))
    requires var link := p.ab.(transit := p.ab.transit + [Queue(p.a.out, data)[0].frame]);
             p2 == p.(a := Flushing(p.a, data), ab := link) && p3 == p.(a := WrittenOut(p.a, data), ab := link)
    ensures PairStep(ca, cb, p1, AtA(Flush), p2) && PairStep(ca, cb, p2, AtA(Written), p3)
  {
    hide Step, WrittenOut;
  }

  /** The writer of side `b` puts the first frame of a lane on the link. */
  lemma {:induction false} WritesB(ca: Config, cb: Config, p: Pair, data: bool)
    returns (run: seq<Pair>, events: seq<PairEvent>)
    requires TurnBegins(p.b, data) && p.ba.up
    ensures PairPath(ca, cb, run, events) && run[0] == p
    ensures run[|events|] == p.(b := WrittenOut(p.b, data),
                                ba := p.ba.(transit := p.ba.transit + [Queue(p.b.out, data)[0].frame]))
  {
    hide Path, PairPath, PairStep, Step, WrittenOut;
    var picks := PickPath(cb, p.b, data);
    PicksArePrivate(data);
    LiftB(ca, cb, p, picks, PickSteps(data));
    var p1 := p.(b := InSink(p.b, data));
    var link := p.ba.(transit := p.ba.transit + [Queue(p.b.out, data)[0].frame]);
    var p2 := p.(b := Flushing(p.b, data), ba := link);
    var p3 := p.(b := WrittenOut(p.b, data), ba := link);
    FlushPath(cb, p.b, data);
    FlushB(ca, cb, p, data, p1, p2, p3);
    PathLength(cb, picks, PickSteps(data));
    run, events := OfB(p, picks), ByB(PickSteps(data));
    PairPathOf(ca, cb, p1, AtB(Flush), p2);
    PairPathOf(ca, cb, p2, AtB(Written), p3);
    PairJoined(ca, cb, run, events, [p1, p2], [AtB(Flush)]);
    run, events := run + [p1, p2][1..], events + [AtB(Flush)];
    PairJoined(ca, cb, run, events, [p2, p3], [AtB(Written)]);
    run, events := run + [p2, p3][1..], events + [AtB(Written)];
  }

  lemma {:induction false} FlushB(ca: Config, cb: Config, p: Pair, data: bool, p1: Pair, p2: Pair, p3: Pair)
    requires TurnBegins(p.b, data) && p.ba.up
    requires Step(cb, InSink(p.b, data), Flush, Flushing(p.b, data))
    requires Step(cb, Flushing(p.b, data), Written, WrittenOut(p.b, data))
    requires p1 == p.(b := InSink(p.b, data))
    requires var link := p.ba.(transit := p.ba.transit + [Queue(p.b.out, data)[0].frame]);
             p2 == p.(b := Flushing(p.b, data), ba := link) && p3 == p.(b := WrittenOut(p.b, data), ba := link)
    ensures PairStep(ca, cb, p1, AtB(Flush), p2) && PairStep(ca, cb, p2, AtB(Written), p3)
  {
    hide Step, WrittenOut;
  }

  lemma {:induction false} PathLength(c: Config, run: seq<State>, events: seq<Event>)
    requires Path(c, run, events)
    ensures |run| == |events| + 1
  {
  }

  // ----- there and back

  /** An open session in which nothing is queued, being written or being read. */
  predicate Rests(s: State) {
    && s.gate.open && !s.gate.ended && s.driver.Selecting? && !s.out.stop
    && s.out.writer.Polling? && s.out.sink.None? && s.out.data == [] && s.out.control == []
  }

  predicate PairRests(p: Pair) {
    Rests(p.a) && Rests(p.b) && p.ab.up && p.ba.up && p.ab.transit == [] && p.ba.transit == []
  }

  /** Both sides have room for the message and for the reply to it. */
  ghost predicate RoomForBoth(ca: Config, cb: Config, p: Pair, id: Id, payload: Text, result: HandlerResult) {
    var message, reply := |Wire(Message(id, payload))|, |Wire(ReplyTo(id, result))|;
    && message <= ca.maxMessage && message <= cb.maxMessage && reply <= ca.maxMessage && reply <= cb.maxMessage
    && RequestRoom(ca.limits, p.a.ledger.usage) && DataRoom(ca.limits, p.a.ledger.usage, message)
    && HandlerRoom(cb.limits, p.b.ledger.usage, |payload|) && ControlRoom(cb.limits, p.b.ledger.usage, reply)
  }

  /** Side `a` after its new exchange has queued its message. */
  function Asked(s: State, id: Id, payload: Text): State {
    SentBy(s.(threads := s.threads + [Thread(Call(id, payload, None), false, Begin)]), |s.threads|)
  }

  lemma {:induction false} SendBegins(c: Config, s: State, id: Id, payload: Text)
    requires FreshId(s.threads, id)
    ensures Path(c, [s, s.(threads := s.threads + [Thread(Call(id, payload, None), false, Begin)])],
                 [Send(id, payload)])
  {
    hide SendStep, HandleStep, DriverStep, WriterStep, Path;
    var s' := s.(threads := s.threads + [Thread(Call(id, payload, None), false, Begin)]);
    assert CallStep(c, s, Send(id, payload), s');
    PathOf(c, s, Send(id, payload), s');
  }

  lemma {:induction false} Asks(ca: Config, cb: Config, p: Pair, id: Id, payload: Text)
    returns (run: seq<Pair>, events: seq<PairEvent>)
    requires WellFormedId(id) && Valid(payload) && FreshId(p.a.threads, id)
    requires WithinLimits(p.a.ledger.usage, ca.limits) && QueuesCounted(p.a) && p.a.gate.open
    requires |Wire(Message(id, payload))| <= ca.maxMessage
    requires RequestRoom(ca.limits, p.a.ledger.usage)
    requires DataRoom(ca.limits, p.a.ledger.usage, |Wire(Message(id, payload))|)
    ensures PairPath(ca, cb, run, events) && run[0] == p && run[|events|] == p.(a := Asked(p.a, id, payload))
  {
    hide StepAt, PairPath, Wire, FreshId;
    var i := |p.a.threads|;
    var s1 := p.a.(threads := p.a.threads + [Thread(Call(id, payload, None), false, Begin)]);
    SendBegins(ca, p.a, id, payload);
    assert RoomToSend(ca, s1, i);
    var sending := SendPath(ca, s1, i);
    Joined(ca, [p.a, s1], [Send(id, payload)], sending, SendSteps(i));
    var path, steps := [p.a, s1] + sending[1..], [Send(id, payload)] + SendSteps(i);
    PathLength(ca, path, steps);
    LiftA(ca, cb, p, path, steps);
    run, events := OfA(p, path), ByA(steps);
  }

  /** Side `b` reads the message, handles it, and queues the reply. */
  lemma {:induction false} Handles(ca: Config, cb: Config, p: Pair, id: Id, payload: Text, result: HandlerResult)
    returns (run: seq<Pair>, events: seq<PairEvent>)
    requires WellFormed(Message(id, payload)) && |Wire(Message(id, payload))| <= cb.maxMessage
    requires TypedEvent(Return(0, result)) && p.b.driver.Selecting? && !p.b.gate.ended && p.b.gate.open
    requires WithinLimits(p.b.ledger.usage, cb.limits) && QueuesCounted(p.b)
    requires p.ab.transit == [Message(id, payload)]
    requires HandlerRoom(cb.limits, p.b.ledger.usage, |payload|)
    requires |Wire(ReplyTo(id, result))| <= cb.maxMessage
    requires ControlRoom(cb.limits, p.b.ledger.usage, |Wire(ReplyTo(id, result))|)
    ensures PairPath(ca, cb, run, events) && run[0] == p
    ensures var s := HandledBy(p.b, id, payload);
            run[|events|] == p.(b := AnsweredBy(s, |p.b.threads|, result), ab := p.ab.(transit := []))
  {
    hide StepAt, PairPath, Wire, PairStep, Step, WellFormed, HandledBy, AnsweredBy;
    var j, link := |p.b.threads|, p.ab.(transit := []);
    var handling := HandlePath(cb, p.b, id, payload, []);
    HandledState(p.b, id, payload);
    var s4 := HandledBy(p.b, id, payload);
    HandledWithin(cb, p.b, id, payload);
    var answering := AnswerPath(cb, s4, j, result);
    // the first step reads from the link, the others are private
    var first := SplitPath(cb, handling, HandleSteps(id, payload, j, []));
    var q := p.(b := first[0], ab := link);
    ReadAsWritten(cb, Message(id, payload), p.ab);
    ReadsB(ca, cb, p, Message(id, payload), q);
    PairPathOf(ca, cb, p, AtB(Receive(Message(id, payload))), q);
    var rest := HandleSteps(id, payload, j, [])[1..];
    Joined(cb, first, rest, answering, AnswerSteps(j, result));
    var path, steps := first + answering[1..], rest + AnswerSteps(j, result);
    PathLength(cb, path, steps);
    HandlingIsPrivate(id, payload, j, result);
    LiftB(ca, cb, q, path, steps);
    PairJoined(ca, cb, [p, q], [AtB(Receive(Message(id, payload)))], OfB(q, path), ByB(steps));
    run := [p, q] + OfB(q, path)[1..];
    events := [AtB(Receive(Message(id, payload)))] + ByB(steps);
  }

  lemma {:induction false} HandlingIsPrivate(id: Id, payload: Text, j: nat, result: HandlerResult)
    requires TypedEvent(Return(0, result))
    ensures AllPrivate(HandleSteps(id, payload, j, [])[1..] + AnswerSteps(j, result))
  {
  }

  lemma {:induction false} HandledState(s: State, id: Id, payload: Text)
    ensures var s' := HandledBy(s, id, payload); var j := |s.threads|;
            && HandleAt(s', j, Running) && s'.threads[j].task.holds && s'.threads[j].task.id == id
            && !s'.threads[j].sent && s'.driver == s.driver && s'.gate == s.gate && s'.out == s.out
            && s'.threads[j].task.payload == payload
  {
  }

  lemma {:induction false} HandledWithin(c: Config, s: State, id: Id, payload: Text)
    requires WithinLimits(s.ledger.usage, c.limits) && HandlerRoom(c.limits, s.ledger.usage, |payload|)
    requires QueuesCounted(s)
    ensures var s' := HandledBy(s, id, payload);
            && WithinLimits(s'.ledger.usage, c.limits) && QueuesCounted(s')
            && s'.ledger.usage.control == s.ledger.usage.control
            && s'.ledger.usage.controlBytes == s.ledger.usage.controlBytes
  {
    var usage, more := s.ledger.usage, HandledBy(s, id, payload).ledger.usage;
    forall g ensures 0 <= more.At(g) <= c.limits.At(g) {
      assert 0 <= usage.At(g) <= c.limits.At(g);
    }
  }

  /** A path without its first step. */
  lemma {:induction false} SplitPath(c: Config, run: seq<State>, events: seq<Event>) returns (rest: seq<State>)
    requires Path(c, run, events) && events != []
    ensures Path(c, rest, events[1..]) && rest[0] == run[1] && rest[|events| - 1] == run[|events|]
    ensures Step(c, run[0], events[0], rest[0])
  {
    hide Step;
    rest := run[1..];
    assert StepAt(c, run, events, 0);
    forall k | 0 <= k < |events| - 1 ensures StepAt(c, rest, events[1..], k) {
      assert StepAt(c, run, events, k + 1);
    }
  }

  lemma {:induction false} ReadsB(ca: Config, cb: Config, p: Pair, f: Frame, q: Pair)
    requires Step(cb, p.b, Receive(f), q.b) && Arrives(cb, Receive(f), p.ab, q.ab) && q == p.(b := q.b, ab := q.ab)
    ensures PairStep(ca, cb, p, AtB(Receive(f)), q)
  {
    hide Step, Arrives;
  }

  lemma {:induction false} ReadsA(ca: Config, cb: Config, p: Pair, f: Frame, q: Pair)
    requires Step(ca, p.a, Receive(f), q.a) && Arrives(ca, Receive(f), p.ba, q.ba) && q == p.(a := q.a, ba := q.ba)
    ensures PairStep(ca, cb, p, AtA(Receive(f)), q)
  {
    hide Step, Arrives;
  }

  /** Side `a` reads the reply, and its send returns. */
  lemma {:induction false} GetsBack(ca: Config, cb: Config, p: Pair, i: nat, f: Frame)
    returns (run: seq<Pair>, events: seq<PairEvent>)
    requires AwaitsIt(p.a, i, f) && |Wire(f)| <= ca.maxMessage && p.ba.transit == [f]
    ensures PairPath(ca, cb, run, events) && run[0] == p
    ensures run[|events|] == p.(a := ReturnedBy(p.a, i, f), ba := p.ba.(transit := []))
  {
    hide StepAt, PairPath, Wire, PairStep, Step, WellFormed, ReturnedBy;
    var link := p.ba.(transit := []);
    var path := ReturnPath(ca, p.a, i, f);
    var first := SplitPath(ca, path, ReturnSteps(i, f));
    var q := p.(a := first[0], ba := link);
    ReadAsWritten(ca, f, p.ba);
    ReadsA(ca, cb, p, f, q);
    PairPathOf(ca, cb, p, AtA(Receive(f)), q);
    var rest := ReturnSteps(i, f)[1..];
    PathLength(ca, first, rest);
    LiftA(ca, cb, q, first, rest);
    PairJoined(ca, cb, [p, q], [AtA(Receive(f))], OfA(q, first), ByA(rest));
    run := [p, q] + OfA(q, first)[1..];
    events := [AtA(Receive(f))] + ByA(rest);
  }

  /** Side `a`, its message written, waits for the answer. */
  lemma {:induction false} AskedWaits(s: State, id: Id, payload: Text)
    requires Rests(s)
    ensures var asked, i := Asked(s, id, payload), |s.threads|;
            && TurnBegins(asked, true) && Queue(asked.out, true)[0].frame == Message(id, payload)
            && var s' := WrittenOut(asked, true);
               && Rests(s') && |s'.threads| == i + 1
               && s'.threads[i] == Thread(Call(id, payload, None), true, Waiting)
               && id in s'.book.pending && s'.book.pending[id] == i && s'.counters == s.counters
  {
    hide Wire, Counts.Refund;
  }

  /** Side `b`, the reply written, is done with the message. */
  lemma {:induction false} HandledRests(s: State, id: Id, payload: Text, result: HandlerResult)
    requires Rests(s) && HandleAt(HandledBy(s, id, payload), |s.threads|, Running)
    ensures var j := |s.threads|;
            var answered := AnsweredBy(HandledBy(s, id, payload), j, result);
            && TurnBegins(answered, false) && Queue(answered.out, false)[0].frame == ReplyTo(id, result)
            && var s' := WrittenOut(answered, false);
               && Rests(s') && |s'.threads| == j + 1 && s'.threads[j].pc == Finished && s'.threads[j].sent
               && s'.threads[j].task == Handle(id, payload, s.counters.frames + 1, Some(result),
                                               ReplyTo(id, result), false)
  {
    hide Wire, Counts.Refund, ReplyTo;
  }

  lemma {:induction false} ReturnedRests(s: State, i: nat, f: Frame)
    requires Rests(s) && AwaitsIt(s, i, f)
    ensures var s' := ReturnedBy(s, i, f);
            && Rests(s') && |s'.threads| == |s.threads|
            && s'.threads[i].pc == Ended(SessionSettlement.OutcomeOf(f, s.counters.frames + 1))
            && f.id !in s'.book.pending && s'.threads[i].task.Call?
            && s'.threads[i].task.id == s.threads[i].task.id && s'.threads[i].task.payload == s.threads[i].task.payload
  {
    hide Wire, WellFormed;
  }

  /** What the sender is told of a result. */
  predicate Told(result: HandlerResult, o: Outcome) {
    match result
    case Returned(payload) => o.Acked? && SameReply(payload, o.result)
    case Raised(problem) => o.Refused? && SameReply(Some(problem), o.problem)
  }

  lemma {:induction false} ReplyTold(id: Id, result: HandlerResult, arrival: nat)
    requires WellFormedId(id) && TypedEvent(Return(0, result))
    ensures var f := ReplyTo(id, result);
            && WellFormed(f) && (f.Ack? || f.Nak?) && f.id == id
            && Told(result, SessionSettlement.OutcomeOf(f, arrival))
  {
  }

  /** Where the message and its reply lead from `p`. */
  function ThereAndBack(p: Pair, id: Id, payload: Text, result: HandlerResult): Pair
    requires PairRests(p) && WellFormedId(id) && Valid(payload) && TypedEvent(Return(0, result))
  {
    AskedWaits(p.a, id, payload);
    HandledState(p.b, id, payload);
    HandledRests(p.b, id, payload, result);
    ReplyTold(id, result, p.a.counters.frames + 1);
    p.(a := ReturnedBy(WrittenOut(Asked(p.a, id, payload), true), |p.a.threads|, ReplyTo(id, result)),
       b := WrittenOut(AnsweredBy(HandledBy(p.b, id, payload), |p.b.threads|, result), false))
  }

  /** The way of the message, up to the link. */
  lemma {:induction false} OutwardPath(ca: Config, cb: Config, p: Pair, id: Id, payload: Text)
    returns (run: seq<Pair>, events: seq<PairEvent>)
    requires PairRests(p) && WellFormedId(id) && Valid(payload) && FreshId(p.a.threads, id)
    requires WithinLimits(p.a.ledger.usage, ca.limits) && QueuesCounted(p.a)
    requires |Wire(Message(id, payload))| <= ca.maxMessage && RequestRoom(ca.limits, p.a.ledger.usage)
    requires DataRoom(ca.limits, p.a.ledger.usage, |Wire(Message(id, payload))|)
    requires TurnBegins(Asked(p.a, id, payload), true)
    ensures PairPath(ca, cb, run, events) && run[0] == p
    ensures run[|events|] == p.(a := WrittenOut(Asked(p.a, id, payload), true),
                                ab := p.ab.(transit := [Message(id, payload)]))
  {
    hide PairStepAt, Wire, WithinLimits, QueuesCounted, WrittenOut, Asked, FreshId;
    AskedWaits(p.a, id, payload);
    var r1, e1 := Asks(ca, cb, p, id, payload);
    var p1 := p.(a := Asked(p.a, id, payload));
    var r2, e2 := WritesA(ca, cb, p1, true);
    assert p.ab.transit + [Message(id, payload)] == [Message(id, payload)];
    PairJoined(ca, cb, r1, e1, r2, e2);
    run, events := r1 + r2[1..], e1 + e2;
  }

  /** The way of the reply, up to the link. */
  lemma {:induction false} InwardPath(ca: Config, cb: Config, p: Pair, id: Id, payload: Text, result: HandlerResult)
    returns (run: seq<Pair>, events: seq<PairEvent>)
    requires Rests(p.b) && p.ba.up && p.ba.transit == [] && p.ab.transit == [Message(id, payload)]
    requires WellFormed(Message(id, payload)) && |Wire(Message(id, payload))| <= cb.maxMessage
    requires TypedEvent(Return(0, result)) && WithinLimits(p.b.ledger.usage, cb.limits) && QueuesCounted(p.b)
    requires HandlerRoom(cb.limits, p.b.ledger.usage, |payload|)
    requires |Wire(ReplyTo(id, result))| <= cb.maxMessage
    requires ControlRoom(cb.limits, p.b.ledger.usage, |Wire(ReplyTo(id, result))|)
    requires HandleAt(HandledBy(p.b, id, payload), |p.b.threads|, Running)
    requires TurnBegins(AnsweredBy(HandledBy(p.b, id, payload), |p.b.threads|, result), false)
    ensures PairPath(ca, cb, run, events) && run[0] == p
    ensures run[|events|] == p.(b := WrittenOut(AnsweredBy(HandledBy(p.b, id, payload), |p.b.threads|, result), false),
                                ab := p.ab.(transit := []), ba := p.ba.(transit := [ReplyTo(id, result)]))
  {
    hide PairStepAt, Wire, WellFormed, WithinLimits, QueuesCounted, ReplyTo, HandledBy, AnsweredBy, WrittenOut;
    HandledRests(p.b, id, payload, result);
    var r1, e1 := Handles(ca, cb, p, id, payload, result);
    var answered := AnsweredBy(HandledBy(p.b, id, payload), |p.b.threads|, result);
    var p1 := p.(b := answered, ab := p.ab.(transit := []));
    var r2, e2 := WritesB(ca, cb, p1, false);
    assert p.ba.transit + [ReplyTo(id, result)] == [ReplyTo(id, result)];
    PairJoined(ca, cb, r1, e1, r2, e2);
    run, events := r1 + r2[1..], e1 + e2;
  }

  /** The way of a message and of its reply, from state to state. */
  lemma {:induction false} ThereAndBackPath(ca: Config, cb: Config, p: Pair, id: Id, payload: Text,
                                            result: HandlerResult)
    returns (run: seq<Pair>, events: seq<PairEvent>)
    requires PairRests(p) && WellFormedId(id) && Valid(payload) && FreshId(p.a.threads, id)
    requires WithinLimits(p.a.ledger.usage, ca.limits) && QueuesCounted(p.a)
    requires WithinLimits(p.b.ledger.usage, cb.limits) && QueuesCounted(p.b)
    requires TypedEvent(Return(0, result)) && RoomForBoth(ca, cb, p, id, payload, result)
    ensures PairPath(ca, cb, run, events) && run[0] == p && run[|events|] == ThereAndBack(p, id, payload, result)
  {
    hide PairStepAt, Wire, WellFormed, WithinLimits, QueuesCounted, ReplyTo, HandledBy, AnsweredBy, ReturnedBy,
         WrittenOut, Asked, Told, FreshId;
    var f := ReplyTo(id, result);
    ReplyTold(id, result, p.a.counters.frames + 1);
    MessageTyped(id, payload);
    AskedWaits(p.a, id, payload);
    HandledState(p.b, id, payload);
    HandledRests(p.b, id, payload, result);
    var r1, e1 := OutwardPath(ca, cb, p, id, payload);
    var r2, e2 := InwardPath(ca, cb, r1[|e1|], id, payload, result);
    PairJoined(ca, cb, r1, e1, r2, e2);
    run, events := r1 + r2[1..], e1 + e2;
    var r3, e3 := GetsBack(ca, cb, run[|events|], |p.a.threads|, f);
    PairJoined(ca, cb, run, events, r3, e3);
    run, events := run + r3[1..], events + e3;
  }

  /** From every state in which both sides are open and nothing is under way between them, whatever happened
      before: a send whose message and reply find room gets through. The peer handles exactly its payload, and
      it returns what the handler made of it: the payload returned, or the problem raised. Then everything is
      at rest again. */
  lemma {:induction false} RoundTrip(ca: Config, cb: Config, run: seq<Pair>, events: seq<PairEvent>, k: nat,
                                     id: Id, payload: Text, result: HandlerResult)
    returns (more: seq<Pair>, steps: seq<PairEvent>)
    requires PairRun(ca, cb, run, events) && k < |run| && PairRests(run[k])
    requires WithinLimits(NOTHING, ca.limits) && WithinLimits(NOTHING, cb.limits)
    requires WellFormedId(id) && Valid(payload) && FreshId(run[k].a.threads, id)
    requires TypedEvent(Return(0, result)) && RoomForBoth(ca, cb, run[k], id, payload, result)
    ensures PairPath(ca, cb, more, steps) && more[0] == run[k] && PairRests(more[|steps|])
    ensures var a, b := more[|steps|].a.threads, more[|steps|].b.threads;
            var i, j := |run[k].a.threads|, |run[k].b.threads|;
            && |a| == i + 1 && a[i].task.Call? && a[i].task.id == id && a[i].task.payload == payload
            && a[i].pc.Ended? && Told(result, a[i].pc.outcome)
            && |b| == j + 1 && b[j].task.Handle? && b[j].task.id == id && b[j].task.payload == payload
            && b[j].task.result == Some(result)
  {
    hide PairRun, PairPath, Wire, WellFormed, WithinLimits, QueuesCounted, ReplyTo, HandledBy, AnsweredBy, ReturnedBy,
         WrittenOut, Asked, Told, FreshId, RoomForBoth;
    var p := run[k];
    BothCounted(ca, cb, run, events, k);
    more, steps := ThereAndBackPath(ca, cb, p, id, payload, result);
    ReplyTold(id, result, p.a.counters.frames + 1);
    AskedWaits(p.a, id, payload);
    HandledState(p.b, id, payload);
    HandledRests(p.b, id, payload, result);
    ReturnedRests(WrittenOut(Asked(p.a, id, payload), true), |p.a.threads|, ReplyTo(id, result));
  }

  lemma {:induction false} MessageTyped(id: Id, payload: Text)
    requires WellFormedId(id) && Valid(payload)
    ensures WellFormed(Message(id, payload))
  {
  }

  lemma {:induction false} BothCounted(ca: Config, cb: Config, run: seq<Pair>, events: seq<PairEvent>, k: nat)
    requires PairRun(ca, cb, run, events) && k < |run|
    requires WithinLimits(NOTHING, ca.limits) && WithinLimits(NOTHING, cb.limits)
    ensures WithinLimits(run[k].a.ledger.usage, ca.limits) && QueuesCounted(run[k].a)
    ensures WithinLimits(run[k].b.ledger.usage, cb.limits) && QueuesCounted(run[k].b)
  {
    hide PairRun, Run, WithinLimits, QueuesCounted;
    var r, es := Project(ca, cb, run, events, k);
    RunCounted(ca, r, es, |es|);
    r, es := ProjectB(ca, cb, run, events, k);
    RunCounted(cb, r, es, |es|);
  }
}
