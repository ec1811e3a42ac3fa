/** Two sessions over two lossless FIFO links that may be cut: what holds from end to end. */
module TwoSessions {
  import opened Texts
  import opened Frames
  import opened Resources
  import opened Sessions
  import opened SessionClose
  import opened SessionSettlement
  import opened SessionHistory
  import SessionLanes
  import opened SessionOrigins
  import opened SessionConservation
  import opened SessionReplies
  import SessionSizes

  /** Frames flushed by one side and not yet read by the other; `lost` are those that never will be,
      and `skipped` says that the reader rejected one, after which it closes. */
  datatype Link = Link(transit: seq<Frame>, up: bool, lost: seq<Frame>, skipped: bool)

  datatype Pair = Pair(a: State, b: State, ab: Link, ba: Link)

  datatype PairEvent = AtA(e: Event) | AtB(e: Event) | CutAB(keep: nat) | CutBA(keep: nat)

  /** What the types of the program guarantee: strings are UTF-8, intervals have 64 bits, generated ids
      are twelve ASCII characters. */
  predicate TypedEvent(e: Event) {
    match e
    case Send(id, payload) => WellFormedId(id) && Valid(payload)
    case StartBeat(interval) => interval <= U64_MAX
    case ReserveTask(_, problem) => Valid(problem)
    case ReserveTaskShared(_, _, problem) => Valid(problem)
    case Reject(_, nak) => nak.Some? ==> Valid(nak.value)
    case Return(_, Returned(payload)) => payload.Some? ==> Valid(payload.value)
    case Return(_, Raised(problem)) => Valid(problem)
    case _ => true
  }

  /** A flushed frame goes onto the link, unless the link is cut. */
  function Flushed(link: Link, f: Frame): Link {
    if link.up then link.(transit := link.transit + [f]) else link.(lost := link.lost + [f])
  }

  function Sent(s: State, e: Event, link: Link): Link {
    if e.Flush? && s.out.sink.Some? then Flushed(link, s.out.sink.value.frame) else link
  }

  /** `handle_incoming`: the size is checked first, then the text is parsed. */
  predicate Reads(c: Config, e: Event, raw: Text) {
    if |raw| > c.maxMessage then e.ReceiveOversized?
    else match Parse(raw)
         case Ok(f) => e == Receive(f)
         case Err(_) => e.ReceiveInvalid?
  }

  /** The link after its oldest frame was read. */
  function Popped(link: Link, accepted: bool): Link
    requires link.transit != []
  {
    if accepted then link.(transit := link.transit[1..])
    else Link(link.transit[1..], link.up, link.lost + [link.transit[0]], true)
  }

  predicate Arrives(c: Config, e: Event, link: Link, link': Link) {
    if e.Receive? || e.ReceiveOversized? || e.ReceiveInvalid? then
      && link.transit != []
      && Reads(c, e, Wire(link.transit[0]))
      && link' == Popped(link, e.Receive?)
    else link' == link
  }

  ghost predicate SideStep(c: Config, s: State, e: Event, s': State, out: Link, out': Link, inn: Link, inn': Link) {
    Step(c, s, e, s') && TypedEvent(e) && out' == Sent(s, e, out) && Arrives(c, e, inn, inn')
  }

  /** A cut loses the end of what is in transit, and all that is flushed later. */
  predicate Cuts(link: Link, keep: nat, link': Link) {
    && keep <= |link.transit|
    && link' == link.(transit := link.transit[..keep], up := false, lost := link.lost + link.transit[keep..])
  }

  ghost predicate PairStep(ca: Config, cb: Config, p: Pair, ev: PairEvent, p': Pair) {
    match ev
    case AtA(e) => p'.b == p.b && SideStep(ca, p.a, e, p'.a, p.ab, p'.ab, p.ba, p'.ba)
    case AtB(e) => p'.a == p.a && SideStep(cb, p.b, e, p'.b, p.ba, p'.ba, p.ab, p'.ab)
    case CutAB(keep) => p'.a == p.a && p'.b == p.b && p'.ba == p.ba && Cuts(p.ab, keep, p'.ab)
    case CutBA(keep) => p'.a == p.a && p'.b == p.b && p'.ab == p.ab && Cuts(p.ba, keep, p'.ba)
  }

  ghost predicate PairStepAt(ca: Config, cb: Config, run: seq<Pair>, events: seq<PairEvent>, k: nat)
    requires k < |events| && |run| == |events| + 1
  {
    PairStep(ca, cb, run[k], events[k], run[k + 1])
  }

  const IDLE := Link([], true, [], false)

  ghost predicate PairRun(ca: Config, cb: Config, run: seq<Pair>, events: seq<PairEvent>) {
    && |run| == |events| + 1
    && run[0] == Pair(InitialState(), InitialState(), IDLE, IDLE)
    && forall k :: 0 <= k < |events| ==> PairStepAt(ca, cb, run, events, k)
  }

  // ----- the two sides are interchangeable

  function Flip(p: Pair): Pair {
    Pair(p.b, p.a, p.ba, p.ab)
  }

  function FlipEvent(e: PairEvent): PairEvent {
    match e
    case AtA(x) => AtB(x)
    case AtB(x) => AtA(x)
    case CutAB(keep) => CutBA(keep)
    case CutBA(keep) => CutAB(keep)
  }

  function FlipRun(run: seq<Pair>): (r: seq<Pair>)
    ensures |r| == |run| && forall k :: 0 <= k < |run| ==> r[k] == Flip(run[k])
  {
    seq(|run|, k requires 0 <= k < |run| => Flip(run[k]))
  }

  function FlipEvents(events: seq<PairEvent>): (r: seq<PairEvent>)
    ensures |r| == |events| && forall k :: 0 <= k < |events| ==> r[k] == FlipEvent(events[k])
  {
    seq(|events|, k requires 0 <= k < |events| => FlipEvent(events[k]))
  }

  /** What is proved of the messages of `a` holds of the messages of `b` just as well. */
  lemma {:induction false} Mirrored(ca: Config, cb: Config, run: seq<Pair>, events: seq<PairEvent>)
    requires PairRun(ca, cb, run, events)
    ensures PairRun(cb, ca, FlipRun(run), FlipEvents(events))
  {
    hide SideStep, Cuts;
    var r, es := FlipRun(run), FlipEvents(events);
    forall k | 0 <= k < |es| ensures PairStepAt(cb, ca, r, es, k) {
      assert PairStepAt(ca, cb, run, events, k);
    }
  }

  // ----- each side on its own is a session

  ghost predicate TypedRun(c: Config, run: seq<State>, events: seq<Event>) {
    && |run| == |events| + 1
    && Run(c, run, events)
    && forall k :: 0 <= k < |events| ==> TypedEvent(events[k])
  }

  lemma {:induction false} RunExtends(c: Config, run: seq<State>, events: seq<Event>, e: Event, s': State)
    requires TypedRun(c, run, events) && TypedEvent(e) && Step(c, run[|events|], e, s')
    ensures TypedRun(c, run + [s'], events + [e])
  {
    hide Step, TypedEvent, InitialState;
    var r, es := run + [s'], events + [e];
    forall k | 0 <= k < |es| ensures StepAt(c, r, es, k) {
      if k < |events| {
        assert StepAt(c, run, events, k);
      }
    }
  }

  /** The steps of side `a` up to state `k` are a run of a session. */
  lemma {:induction false} Project(ca: Config, cb: Config, run: seq<Pair>, events: seq<PairEvent>, k: nat)
    returns (r: seq<State>, es: seq<Event>)
    requires PairRun(ca, cb, run, events) && k < |run|
    ensures TypedRun(ca, r, es) && r[|es|] == run[k].a
  {
    hide Step, TypedEvent, Sent, Arrives, Cuts, InitialState;
    if k == 0 {
      r, es := [InitialState()], [];
    } else {
      r, es := Project(ca, cb, run, events, k - 1);
      assert PairStepAt(ca, cb, run, events, k - 1);
      if events[k - 1].AtA? {
        RunExtends(ca, r, es, events[k - 1].e, run[k].a);
        r, es := r + [run[k].a], es + [events[k - 1].e];
      }
    }
  }

  lemma {:induction false} ProjectB(ca: Config, cb: Config, run: seq<Pair>, events: seq<PairEvent>, k: nat)
    returns (r: seq<State>, es: seq<Event>)
    requires PairRun(ca, cb, run, events) && k < |run|
    ensures TypedRun(cb, r, es) && r[|es|] == run[k].b
  {
    hide PairRun, TypedRun;
    Mirrored(ca, cb, run, events);
    r, es := Project(cb, ca, FlipRun(run), FlipEvents(events), k);
  }

  // ----- frames are well formed, so that parsing gives back what was serialised

  predicate ThreadWellFormed(t: Thread) {
    match t.task
    case Call(id, payload, _) => WellFormedId(id) && Valid(payload)
    case Handle(id, _, _, _, reply, _) => WellFormedId(id) && WellFormed(reply)
    case Beat(interval) => interval <= U64_MAX
  }

  ghost predicate AllWellFormed(ts: seq<Thread>) {
    forall k :: 0 <= k < |ts| ==> ThreadWellFormed(ts[k])
  }

  lemma {:induction false} CallWellFormed(c: Config, s: State, e: Event, s': State)
    requires CallStep(c, s, e, s') && TypedEvent(e) && AllWellFormed(s.threads)
    ensures AllWellFormed(s'.threads)
  {
    hide Admits, Counts.Charge, Counts.Refund, WellFormedId, Valid;
  }

  lemma {:induction false} SendWellFormed(c: Config, s: State, e: Event, s': State)
    requires SendStep(c, s, e, s') && TypedEvent(e) && AllWellFormed(s.threads)
    ensures AllWellFormed(s'.threads)
  {
    hide Admits, Counts.Charge, Counts.Refund, FramePermit, WellFormedId, WellFormed, Valid, HasRoom;
  }

  lemma {:induction false} HandleWellFormed(c: Config, s: State, e: Event, s': State)
    requires HandleStep(c, s, e, s') && TypedEvent(e) && AllWellFormed(s.threads)
    ensures AllWellFormed(s'.threads)
  {
    hide Admits, WellFormedId, Valid, Released, Taken, GivenBack, AfterTask;
  }

  lemma {:induction false} DriverWellFormed(s: State, e: Event, s': State)
    requires DriverStep(s, e, s') && AllWellFormed(s.threads)
    ensures AllWellFormed(s'.threads)
  {
    hide WellFormedId, Valid, Released, Taken, GivenBack, AfterTask;
  }

  lemma {:induction false} StepWellFormed(c: Config, s: State, e: Event, s': State)
    requires Step(c, s, e, s') && TypedEvent(e) && AllWellFormed(s.threads)
    ensures AllWellFormed(s'.threads)
  {
    hide CallStep, SendStep, HandleStep, DriverStep, WriterStep, TypedEvent, AllWellFormed;
    if CallStep(c, s, e, s') {
      CallWellFormed(c, s, e, s');
    } else if SendStep(c, s, e, s') {
      SendWellFormed(c, s, e, s');
    } else if HandleStep(c, s, e, s') {
      HandleWellFormed(c, s, e, s');
    } else if DriverStep(s, e, s') {
      DriverWellFormed(s, e, s');
    } else {
      WriterKeepsThreads(s, e, s');
    }
  }

  lemma {:induction false} RunWellFormed(c: Config, run: seq<State>, events: seq<Event>, k: nat)
    requires TypedRun(c, run, events) && k < |run|
    ensures AllWellFormed(run[k].threads)
  {
    hide Step, TypedEvent, ThreadWellFormed;
    if k > 0 {
      RunWellFormed(c, run, events, k - 1);
      assert StepAt(c, run, events, k - 1);
      StepWellFormed(c, run[k - 1], events[k - 1], run[k]);
    }
  }

  /** What the results about single sessions say of side `a`. */
  ghost predicate SideFacts(s: State) {
    && CloseInv(s) && Traced(s)
    && WireFits(s.threads, s.log)
    && AllWellFormed(s.threads)
    && SessionLanes.Flushed(s.log, s.out)
    && (s.out.sink.Some? ==> ItemFits(s.threads, s.out.sink.value))
  }

  lemma {:induction false} RunFacts(c: Config, r: seq<State>, es: seq<Event>)
    requires TypedRun(c, r, es)
    ensures SideFacts(r[|es|])
  {
    hide Run, CloseInv, Traced, WireFits, AllWellFormed, SessionLanes.Flushed, ItemFits, SessionLanes.InOrder;
    RunTraced(c, r, es, |es|);
    RunSourced(c, r, es, |es|);
    SessionLanes.RunKeepsLanes(c, r, es, |es|);
    RunWellFormed(c, r, es, |es|);
  }

  lemma {:induction false} BothFacts(ca: Config, cb: Config, run: seq<Pair>, events: seq<PairEvent>, k: nat)
    requires PairRun(ca, cb, run, events) && k < |run|
    ensures SideFacts(run[k].a) && SideFacts(run[k].b)
  {
    hide PairRun, TypedRun, SideFacts;
    var r, es := Project(ca, cb, run, events, k);
    RunFacts(ca, r, es);
    r, es := ProjectB(ca, cb, run, events, k);
    RunFacts(cb, r, es);
  }

  lemma {:induction false} WireWellFormed(s: State, m: nat)
    requires SideFacts(s) && m < |s.log.wire|
    ensures WellFormed(s.log.wire[m])
  {
    hide CloseInv, Traced, SessionLanes.Flushed, WellFormedId, Valid;
    assert SentBy(s.threads, s.log.senders[m], s.log.wire[m]);
    assert ThreadWellFormed(s.threads[s.log.senders[m]]);
  }

  // ----- the links

  /** What a step does to the records of what was read and what was written. */
  lemma {:induction false} WriterLogs(s: State, e: Event, s': State)
    requires WriterStep(s, e, s')
    ensures !e.Receive? && s'.log.received == s.log.received
    ensures if e.Flush? then s.out.sink.Some? && s'.log.wire == s.log.wire + [s.out.sink.value.frame]
            else s'.log.wire == s.log.wire
  {
    hide Counts.Refund;
  }

  lemma {:induction false} ReadLogs(s: State, e: Event, s': State)
    requires ReadStep(s, e, s')
    ensures !e.Flush? && s'.log.wire == s.log.wire
    ensures s'.log.received == if e.Receive? then s.log.received + [e.frame] else s.log.received
  {
    hide Released, WellFormed, Completed;
  }

  lemma {:induction false} CloseLogs(s: State, e: Event, s': State)
    requires CloseStep(s, e, s')
    ensures !e.Flush? && !e.Receive? && s'.log == s.log
  {
    hide Released, AllHandled, Completed;
  }

  lemma {:induction false} DriverLogs(s: State, e: Event, s': State)
    requires DriverStep(s, e, s')
    ensures !e.Flush? && s'.log.wire == s.log.wire
    ensures s'.log.received == if e.Receive? then s.log.received + [e.frame] else s.log.received
  {
    hide ReadStep, CloseStep;
    if ReadStep(s, e, s') {
      ReadLogs(s, e, s');
    } else {
      CloseLogs(s, e, s');
    }
  }

  lemma {:induction false} CallLogs(c: Config, s: State, e: Event, s': State)
    requires CallStep(c, s, e, s')
    ensures !e.Flush? && !e.Receive? && s'.log == s.log
  {
    hide Admits, Released, Taken, GivenBack;
  }

  lemma {:induction false} HandleLogs(c: Config, s: State, e: Event, s': State)
    requires HandleStep(c, s, e, s')
    ensures !e.Flush? && !e.Receive? && s'.log == s.log
  {
    hide Admits, Released, Taken, GivenBack, AfterTask;
  }

  lemma {:induction false} SendLogs(c: Config, s: State, e: Event, s': State)
    requires SendStep(c, s, e, s')
    ensures !e.Flush? && !e.Receive? && s'.log.received == s.log.received && s'.log.wire == s.log.wire
  {
    hide Admits, Counts.Charge, Counts.Refund, FramePermit, HasRoom;
  }

  lemma {:induction false} StepLogs(c: Config, s: State, e: Event, s': State)
    requires Step(c, s, e, s')
    ensures s'.log.received == if e.Receive? then s.log.received + [e.frame] else s.log.received
    ensures if e.Flush? then s.out.sink.Some? && s'.log.wire == s.log.wire + [s.out.sink.value.frame]
            else s'.log.wire == s.log.wire
  {
    hide CallStep, SendStep, HandleStep, DriverStep, WriterStep;
    if CallStep(c, s, e, s') {
      CallLogs(c, s, e, s');
    } else if HandleStep(c, s, e, s') {
      HandleLogs(c, s, e, s');
    } else if SendStep(c, s, e, s') {
      SendLogs(c, s, e, s');
    } else if DriverStep(s, e, s') {
      DriverLogs(s, e, s');
    } else {
      WriterLogs(s, e, s');
    }
  }

  /** Of the frames of one direction, everything written is in transit, read, or lost. */
  predicate Counted(wire: seq<Frame>, link: Link, received: seq<Frame>, tag: Tag) {
    Count(wire, tag) == Count(link.transit, tag) + Count(received, tag) + Count(link.lost, tag)
  }

  /** The frames of `fs` were written at these positions of `wire`, in this order. */
  ghost predicate Embedded(fs: seq<Frame>, at: seq<int>, wire: seq<Frame>) {
    && |at| == |fs|
    && (forall m :: 0 <= m < |fs| ==> 0 <= at[m] < |wire| && wire[at[m]] == fs[m])
    && (forall m, n :: 0 <= m < n < |fs| ==> at[m] < at[n])
  }

  /** What is read or in transit was written, in that order, whatever was rejected or lost. Unless the reader
      rejected a frame, it has read the first frames written. */
  ghost predicate InOrder(wire: seq<Frame>, link: Link, received: seq<Frame>) {
    && (exists at :: Embedded(received + link.transit, at, wire))
    && (!link.skipped ==> received + link.transit <= wire)
    && (!link.skipped && link.up ==> received + link.transit == wire)
  }

  ghost predicate Carried(wire: seq<Frame>, link: Link, received: seq<Frame>, tag: Tag) {
    Counted(wire, link, received, tag) && InOrder(wire, link, received)
  }

  lemma {:induction false} CountConcat(fs: seq<Frame>, gs: seq<Frame>, tag: Tag)
    ensures Count(fs + gs, tag) == Count(fs, tag) + Count(gs, tag)
  {
    if gs == [] {
      assert fs + gs == fs;
    } else {
      assert (fs + gs)[..|fs + gs| - 1] == fs + gs[..|gs| - 1];
      CountConcat(fs, gs[..|gs| - 1], tag);
    }
  }

  lemma {:induction false} CountSingle(f: Frame, tag: Tag)
    ensures Count([f], tag) == One(Tagged(f, tag))
  {
    assert [f][..0] == [];
  }

  lemma {:induction false} CountSplit(fs: seq<Frame>, n: nat, tag: Tag)
    requires n <= |fs|
    ensures Count(fs, tag) == Count(fs[..n], tag) + Count(fs[n..], tag)
  {
    assert fs == fs[..n] + fs[n..];
    CountConcat(fs[..n], fs[n..], tag);
  }

  lemma {:induction false} FlushCounted(wire: seq<Frame>, f: Frame, link: Link, received: seq<Frame>, tag: Tag)
    requires Counted(wire, link, received, tag)
    ensures Counted(wire + [f], Flushed(link, f), received, tag)
  {
    hide Count;
    CountAppend(wire, f, tag);
    CountAppend(link.transit, f, tag);
    CountAppend(link.lost, f, tag);
  }

  lemma {:induction false} EmbeddedMore(fs: seq<Frame>, at: seq<int>, wire: seq<Frame>, f: Frame)
    requires Embedded(fs, at, wire)
    ensures Embedded(fs, at, wire + [f]) && Embedded(fs + [f], at + [|wire|], wire + [f])
  {
  }

  lemma {:induction false} FlushInOrder(wire: seq<Frame>, f: Frame, link: Link, received: seq<Frame>)
    requires InOrder(wire, link, received)
    ensures InOrder(wire + [f], Flushed(link, f), received)
  {
    hide Embedded;
    var fs := received + link.transit;
    var at :| Embedded(fs, at, wire);
    EmbeddedMore(fs, at, wire, f);
    if link.up {
      assert received + (link.transit + [f]) == fs + [f];
    }
  }

  lemma {:induction false} ReadCounted(wire: seq<Frame>, link: Link, received: seq<Frame>, accepted: bool, tag: Tag)
    requires link.transit != [] && Counted(wire, link, received, tag)
    ensures Counted(wire, Popped(link, accepted), if accepted then received + [link.transit[0]] else received, tag)
  {
    hide Tagged, Count;
    var f := link.transit[0];
    CountSplit(link.transit, 1, tag);
    CountSingle(f, tag);
    assert link.transit[..1] == [f];
    CountAppend(received, f, tag);
    CountAppend(link.lost, f, tag);
  }

  lemma {:induction false} EmbeddedTake(fs: seq<Frame>, at: seq<int>, wire: seq<Frame>, n: nat)
    requires Embedded(fs, at, wire) && n <= |fs|
    ensures |at| == |fs| && Embedded(fs[..n], at[..n], wire)
  {
  }

  lemma {:induction false} EmbeddedWithout(fs: seq<Frame>, at: seq<int>, wire: seq<Frame>, n: nat)
    requires Embedded(fs, at, wire) && n < |fs|
    ensures |at| == |fs|
    ensures Embedded(fs[..n] + fs[n + 1..], at[..n] + at[n + 1..], wire)
  {
  }

  lemma {:induction false} ReadInOrder(wire: seq<Frame>, link: Link, received: seq<Frame>, accepted: bool)
    requires link.transit != [] && InOrder(wire, link, received)
    ensures InOrder(wire, Popped(link, accepted), if accepted then received + [link.transit[0]] else received)
  {
    hide Embedded;
    var fs, rest := received + link.transit, link.transit[1..];
    var at :| Embedded(fs, at, wire);
    if accepted {
      assert received + [link.transit[0]] + rest == fs;
    } else {
      var n := |received|;
      EmbeddedWithout(fs, at, wire, n);
      assert received + rest == fs[..n] + fs[n + 1..];
      assert Embedded(received + Popped(link, false).transit, at[..n] + at[n + 1..], wire);
    }
  }

  lemma {:induction false} TransitWritten(wire: seq<Frame>, link: Link, received: seq<Frame>)
    requires InOrder(wire, link, received)
    ensures forall m :: 0 <= m < |link.transit| ==> link.transit[m] in wire
    ensures forall m :: 0 <= m < |received| ==> received[m] in wire
  {
    var fs := received + link.transit;
    var at :| Embedded(fs, at, wire);
    forall m | 0 <= m < |link.transit| ensures link.transit[m] in wire {
      assert fs[|received| + m] == link.transit[m];
    }
    forall m | 0 <= m < |received| ensures received[m] in wire {
      assert fs[m] == received[m];
    }
  }

  lemma {:induction false} CutInOrder(wire: seq<Frame>, received: seq<Frame>, link: Link, keep: nat, link': Link)
    requires Cuts(link, keep, link') && InOrder(wire, link, received)
    ensures InOrder(wire, link', received)
  {
    hide Embedded;
    var fs := received + link.transit;
    var at :| Embedded(fs, at, wire);
    EmbeddedTake(fs, at, wire, |received| + keep);
    assert received + link.transit[..keep] == fs[..|received| + keep];
  }

  lemma {:induction false} WriterCarries(c: Config, s: State, e: Event, s': State,
                                         link: Link, received: seq<Frame>, tag: Tag)
    requires Step(c, s, e, s') && Carried(s.log.wire, link, received, tag)
    ensures Carried(s'.log.wire, Sent(s, e, link), received, tag)
  {
    hide Step, Counted, InOrder;
    StepLogs(c, s, e, s');
    if e.Flush? {
      FlushCounted(s.log.wire, s.out.sink.value.frame, link, received, tag);
      FlushInOrder(s.log.wire, s.out.sink.value.frame, link, received);
    }
  }

  lemma {:induction false} ReaderCarries(c: Config, wire: seq<Frame>, s: State, e: Event, s': State,
                                         link: Link, link': Link, tag: Tag)
    requires Step(c, s, e, s') && Arrives(c, e, link, link') && Carried(wire, link, s.log.received, tag)
    requires forall m :: 0 <= m < |wire| ==> WellFormed(wire[m])
    ensures Carried(wire, link', s'.log.received, tag)
  {
    hide Step, Parse, Wire, WellFormed, Valid, Counted, InOrder;
    StepLogs(c, s, e, s');
    if e.Receive? || e.ReceiveOversized? || e.ReceiveInvalid? {
      TransitWritten(wire, link, s.log.received);
      ParseWire(link.transit[0]);
      assert link' == Popped(link, e.Receive?);
      ReadCounted(wire, link, s.log.received, e.Receive?, tag);
      ReadInOrder(wire, link, s.log.received, e.Receive?);
    }
  }

  lemma {:induction false} CutCarries(wire: seq<Frame>, received: seq<Frame>, link: Link, keep: nat, link': Link,
                                      tag: Tag)
    requires Cuts(link, keep, link') && Carried(wire, link, received, tag)
    ensures Carried(wire, link', received, tag)
  {
    hide InOrder;
    CountSplit(link.transit, keep, tag);
    CountConcat(link.lost, link.transit[keep..], tag);
    CutInOrder(wire, received, link, keep, link');
  }

  lemma {:induction false} CarriedAB(ca: Config, cb: Config, run: seq<Pair>, events: seq<PairEvent>, k: nat, tag: Tag)
    requires PairRun(ca, cb, run, events) && k < |run|
    ensures Carried(run[k].a.log.wire, run[k].ab, run[k].b.log.received, tag)
  {
    hide Step, Carried, TypedEvent, Arrives, Sent, Cuts, SideFacts, WellFormed;
    if k == 0 {
      CarriedNothing(tag);
    } else {
      var p, ev, p' := run[k - 1], events[k - 1], run[k];
      CarriedAB(ca, cb, run, events, k - 1, tag);
      assert PairStepAt(ca, cb, run, events, k - 1);
      match ev {
        case AtA(e) => WriterCarries(ca, p.a, e, p'.a, p.ab, p.b.log.received, tag);
        case AtB(e) =>
          BothFacts(ca, cb, run, events, k - 1);
          forall m | 0 <= m < |p.a.log.wire| ensures WellFormed(p.a.log.wire[m]) {
            WireWellFormed(p.a, m);
          }
          ReaderCarries(cb, p.a.log.wire, p.b, e, p'.b, p.ab, p'.ab, tag);
        case CutAB(keep) => CutCarries(p.a.log.wire, p.b.log.received, p.ab, keep, p'.ab, tag);
        case CutBA(keep) =>
      }
    }
  }

  lemma {:induction false} CarriedNothing(tag: Tag)
    ensures Carried(InitialState().log.wire, IDLE, InitialState().log.received, tag)
  {
    assert Embedded([], [], []);
  }

  lemma {:induction false} CarriedBA(ca: Config, cb: Config, run: seq<Pair>, events: seq<PairEvent>, k: nat, tag: Tag)
    requires PairRun(ca, cb, run, events) && k < |run|
    ensures Carried(run[k].b.log.wire, run[k].ba, run[k].a.log.received, tag)
  {
    hide PairRun, Carried;
    Mirrored(ca, cb, run, events);
    CarriedAB(cb, ca, FlipRun(run), FlipEvents(events), k, tag);
  }

  /** When a side may receive what the other may send, it rejects nothing. */
  lemma {:induction false} NothingRejected(ca: Config, cb: Config, run: seq<Pair>, events: seq<PairEvent>, k: nat)
    requires PairRun(ca, cb, run, events) && k < |run| && ca.maxMessage <= cb.maxMessage
    ensures !run[k].ab.skipped
  {
    hide Step, Parse, Wire, SideFacts, Counted, TypedEvent, WellFormed;
    if k > 0 {
      var p, ev := run[k - 1], events[k - 1];
      NothingRejected(ca, cb, run, events, k - 1);
      assert PairStepAt(ca, cb, run, events, k - 1);
      if ev.AtB? && p.ab.transit != [] {
        var f := p.ab.transit[0];
        CarriedAB(ca, cb, run, events, k - 1, MessageOf([]));
        TransitWritten(p.a.log.wire, p.ab, p.b.log.received);
        WrittenIsAcceptable(ca, cb, run, events, k - 1, f);
      }
    }
  }

  lemma {:induction false} WrittenIsAcceptable(ca: Config, cb: Config, run: seq<Pair>, events: seq<PairEvent>, k: nat,
                                               f: Frame)
    requires PairRun(ca, cb, run, events) && k < |run| && f in run[k].a.log.wire
    ensures |Wire(f)| <= ca.maxMessage && Parse(Wire(f)) == Ok(f)
  {
    hide PairRun, Run, SideFacts, Parse, Wire, WellFormed;
    var r, es := Project(ca, cb, run, events, k);
    SessionSizes.WrittenWithinLimit(ca, r, es, |es|, f);
    BothFacts(ca, cb, run, events, k);
    var m: nat :| m < |run[k].a.log.wire| && run[k].a.log.wire[m] == f;
    WireWellFormed(run[k].a, m);
    ParseWire(f);
  }

  /** Then a link that was never cut has delivered, in order, all that was written and is not in transit. */
  lemma {:induction false} LosslessUntilCut(ca: Config, cb: Config, run: seq<Pair>, events: seq<PairEvent>, k: nat)
    requires PairRun(ca, cb, run, events) && k < |run| && ca.maxMessage <= cb.maxMessage && run[k].ab.up
    ensures run[k].a.log.wire == run[k].b.log.received + run[k].ab.transit
  {
    hide PairRun, Counted;
    NothingRejected(ca, cb, run, events, k);
    CarriedAB(ca, cb, run, events, k, MessageOf([]));
  }

  // ----- from end to end

  lemma {:induction false} OneHandler(ts: seq<Thread>, id: Id, i: nat, j: nat)
    requires CountHandled(ts, id) <= 1 && i < |ts| && j < |ts|
    requires ts[i].task.Handle? && ts[i].task.id == id && ts[j].task.Handle? && ts[j].task.id == id
    ensures i == j
    decreases |ts|
  {
    var n := |ts| - 1;
    if i == n && j < n {
      SomeHandler(ts[..n], id, j);
    } else if j == n && i < n {
      SomeHandler(ts[..n], id, i);
    } else if i < n {
      OneHandler(ts[..n], id, i, j);
    }
  }

  lemma {:induction false} SomeHandler(ts: seq<Thread>, id: Id, i: nat)
    requires i < |ts| && ts[i].task.Handle? && ts[i].task.id == id
    ensures CountHandled(ts, id) >= 1
  {
    if i < |ts| - 1 {
      SomeHandler(ts[..|ts| - 1], id, i);
    }
  }

  /** The other side runs at most one handler for each message sent. */
  lemma {:induction false} HandledAtMostOnce(ca: Config, cb: Config, run: seq<Pair>, events: seq<PairEvent>, k: nat,
                                             id: Id)
    requires PairRun(ca, cb, run, events) && k < |run|
    ensures CountHandled(run[k].b.threads, id) <= Count(run[k].a.log.wire, MessageOf(id)) <= 1
  {
    hide PairRun, Run;
    var r, es := Project(ca, cb, run, events, k);
    WrittenOnce(ca, r, es, |es|, id);
    CarriedAB(ca, cb, run, events, k, MessageOf(id));
    r, es := ProjectB(ca, cb, run, events, k);
    RunHandles(cb, r, es, |es|, id);
  }

  /** A reply that was written comes from the thread that handles the message. */
  lemma {:induction false} ReplySource(s: State, f: Frame) returns (j: nat)
    requires SideFacts(s) && f in s.log.wire && (f.Ack? || f.Nak?)
    ensures j < |s.threads| && s.threads[j].task.Handle? && s.threads[j].task.id == f.id
    ensures s.threads[j].task.reply == f && ReplyFits(f.id, s.threads[j].task.result, f)
    ensures Replying(s.threads[j])
  {
    hide Phases, Tasks, Linked, UniqueIds, AllWellFormed, SessionLanes.Flushed;
    var m: nat :| m < |s.log.wire| && s.log.wire[m] == f;
    j := s.log.senders[m];
    assert SentBy(s.threads, j, f) && PcFits(s.threads[j]);
    assert ThreadTraced(s.log.received, s.threads[j]);
  }

  /** A message that was written is the message of the exchange with that id. */
  lemma {:induction false} MessageSource(s: State, f: Frame, i: nat)
    requires SideFacts(s) && f in s.log.wire && f.Message?
    requires i < |s.threads| && s.threads[i].task.Call? && s.threads[i].task.id == f.id
    ensures s.threads[i].task.payload == f.payload
  {
    hide Phases, Tasks, Linked, Typed, AllWellFormed, SessionLanes.Flushed;
    var m: nat :| m < |s.log.wire| && s.log.wire[m] == f;
    var j := s.log.senders[m];
    assert SentBy(s.threads, j, f);
    assert ThreadTraced(s.log.received, s.threads[j]);
  }

  /** Thread `j` of the peer handled exactly the message that exchange `i` sent. */
  predicate Handled(a: State, b: State, i: nat, j: nat) {
    && i < |a.threads| && a.threads[i].task.Call?
    && j < |b.threads| && b.threads[j].task.Handle?
    && b.threads[j].task.id == a.threads[i].task.id
    && b.threads[j].task.payload == a.threads[i].task.payload
  }

  /** No other thread handles a message with the same id. */
  ghost predicate OnlyHandler(ts: seq<Thread>, j: nat)
    requires j < |ts| && ts[j].task.Handle?
  {
    forall m :: 0 <= m < |ts| && ts[m].task.Handle? && ts[m].task.id == ts[j].task.id ==> m == j
  }

  /** The handler behind a reply that side `a` has received for one of its exchanges. */
  lemma {:induction false} ReplyFromPeer(ca: Config, cb: Config, run: seq<Pair>, events: seq<PairEvent>, k: nat,
                                         i: nat, f: Frame) returns (j: nat)
    requires PairRun(ca, cb, run, events) && k < |run|
    requires f in run[k].a.log.received && (f.Ack? || f.Nak?)
    requires i < |run[k].a.threads| && run[k].a.threads[i].task.Call? && run[k].a.threads[i].task.id == f.id
    ensures Handled(run[k].a, run[k].b, i, j)
    ensures ReplyFits(f.id, run[k].b.threads[j].task.result, f)
    ensures Replying(run[k].b.threads[j]) && run[k].b.threads[j].task.reply == f
    ensures OnlyHandler(run[k].b.threads, j)
  {
    hide PairRun, CountHandled, CloseInv, WireFits, AllWellFormed, SessionLanes.Flushed, ReplyFits;
    var a, b := run[k].a, run[k].b;
    BothFacts(ca, cb, run, events, k);
    CarriedBA(ca, cb, run, events, k, ReplyOf(f.id));
    CarriedAB(ca, cb, run, events, k, MessageOf(f.id));
    TransitWritten(b.log.wire, run[k].ba, a.log.received);
    TransitWritten(a.log.wire, run[k].ab, b.log.received);
    j := ReplySource(b, f);
    assert ThreadTraced(b.log.received, b.threads[j]);
    var message := b.log.received[b.threads[j].task.arrival - 1];
    MessageSource(a, message, i);
    HandledAtMostOnce(ca, cb, run, events, k, f.id);
    forall m | 0 <= m < |b.threads| && b.threads[m].task.Handle? && b.threads[m].task.id == f.id ensures m == j {
      OneHandler(b.threads, f.id, m, j);
    }
  }

  /** A `send` that returned `Ok(p)`: the peer's only handler for that very message returned `p`. */
  lemma {:induction false} AckMeansHandled(ca: Config, cb: Config, run: seq<Pair>, events: seq<PairEvent>, k: nat,
                                           i: nat, p: Option<Text>, arrival: nat) returns (j: nat)
    requires PairRun(ca, cb, run, events) && k < |run|
    requires i < |run[k].a.threads| && run[k].a.threads[i].task.Call?
    requires run[k].a.threads[i].pc == Ended(Acked(p, arrival))
    ensures Handled(run[k].a, run[k].b, i, j)
    ensures var result := run[k].b.threads[j].task.result;
            result.Some? && result.value.Returned? && SameReply(result.value.payload, p)
    ensures OnlyHandler(run[k].b.threads, j)
  {
    hide PairRun, CloseInv, WireFits, AllWellFormed, SessionLanes.Flushed;
    var a := run[k].a;
    BothFacts(ca, cb, run, events, k);
    assert ThreadTraced(a.log.received, a.threads[i]);
    j := ReplyFromPeer(ca, cb, run, events, k, i, Ack(a.threads[i].task.id, p));
  }

  /** Thread `j` of side `b` answers without a handler's result: some step of that side chose the answer. */
  lemma {:induction false} RefusalChosen(ca: Config, cb: Config, run: seq<Pair>, events: seq<PairEvent>, k: nat, j: nat)
    requires PairRun(ca, cb, run, events) && k < |run| && j < |run[k].b.threads|
    requires Replying(run[k].b.threads[j]) && run[k].b.threads[j].task.result.None?
    ensures exists m :: 0 <= m < k && events[m].AtB?
                        && Refuses(events[m].e, j, run[k].b.threads[j].task.id, run[k].b.threads[j].task.reply)
  {
    hide Step, CloseInv, Traced, TypedEvent, Arrives, Sent, Cuts, WireFits, AllWellFormed, SessionLanes.Flushed,
         Refuses;
    if k > 0 {
      var s, s' := run[k - 1].b, run[k].b;
      BothFacts(ca, cb, run, events, k - 1);
      assert PairStepAt(ca, cb, run, events, k - 1);
      if !events[k - 1].AtB? {
        RefusalChosen(ca, cb, run, events, k - 1, j);
      } else {
        var e := events[k - 1].e;
        AnswerStep(cb, s, e, s', j);
        if j < |s.threads| && Replying(s.threads[j]) {
          RefusalChosen(ca, cb, run, events, k - 1, j);
        }
      }
    }
  }

  lemma {:induction false} AnswerStep(c: Config, s: State, e: Event, s': State, j: nat)
    requires CloseInv(s) && Traced(s) && Step(c, s, e, s') && j < |s'.threads|
    requires Replying(s'.threads[j]) && s'.threads[j].task.result.None?
    ensures j < |s.threads|
    ensures Replying(s.threads[j]) || Refuses(e, j, s'.threads[j].task.id, s'.threads[j].task.reply)
    ensures Replying(s.threads[j]) ==>
              && s.threads[j].task.result.None?
              && s.threads[j].task.id == s'.threads[j].task.id && s.threads[j].task.reply == s'.threads[j].task.reply
  {
    hide Step, CloseInv, Traced, Refuses;
    LengthGrows(c, s, e, s');
    if j < |s.threads| {
      ThreadEvolves(c, s, e, s', j);
      if !Answered(s.threads[j].pc) {
        AnswerChosen(c, s, e, s', j);
      }
    }
  }

  /** A `send` refused by a NAK: the peer's only thread for that message refused it. Either its handler, as
      registered, came back with exactly this problem, or no handler ran and a step of the peer chose it. */
  lemma {:induction false} NakMeansRefused(ca: Config, cb: Config, run: seq<Pair>, events: seq<PairEvent>, k: nat,
                                           i: nat, problem: Option<Text>) returns (j: nat)
    requires PairRun(ca, cb, run, events) && k < |run|
    requires i < |run[k].a.threads| && run[k].a.threads[i].task.Call?
    requires run[k].a.threads[i].pc == Ended(Refused(problem))
    ensures Handled(run[k].a, run[k].b, i, j)
    ensures var t := run[k].b.threads[j];
            && (t.task.result.Some? ==>
                  t.task.result.value.Raised? && SameReply(Some(t.task.result.value.problem), problem))
            && (t.task.result.None? ==>
                  exists m :: 0 <= m < k && events[m].AtB?
                              && Refuses(events[m].e, j, t.task.id, Nak(t.task.id, problem)))
    ensures OnlyHandler(run[k].b.threads, j)
  {
    hide PairRun, CloseInv, WireFits, AllWellFormed, SessionLanes.Flushed,
         Refuses;
    var a := run[k].a;
    BothFacts(ca, cb, run, events, k);
    assert ThreadTraced(a.log.received, a.threads[i]);
    j := ReplyFromPeer(ca, cb, run, events, k, i, Nak(a.threads[i].task.id, problem));
    if run[k].b.threads[j].task.result.None? {
      RefusalChosen(ca, cb, run, events, k, j);
    }
  }

  // ----- arrival order

  /** A thread that has recorded an arrival: that of its message, or that of the ACK it ended with. */
  predicate HasArrival(t: Thread) {
    t.task.Handle? || (t.task.Call? && t.pc.Ended? && t.pc.outcome.Acked?)
  }

  function ArrivalOf(t: Thread): nat
    requires HasArrival(t)
  {
    if t.task.Handle? then t.task.arrival else t.pc.outcome.arrival
  }

  function ArrivedFrame(t: Thread): Frame
    requires HasArrival(t)
  {
    if t.task.Handle? then Message(t.task.id, t.task.payload) else Ack(t.task.id, t.pc.outcome.result)
  }

  lemma {:induction false} ArrivalRecorded(s: State, i: nat)
    requires SideFacts(s) && i < |s.threads| && HasArrival(s.threads[i])
    ensures var n := ArrivalOf(s.threads[i]);
            1 <= n <= |s.log.received| && s.log.received[n - 1] == ArrivedFrame(s.threads[i])
  {
    hide CloseInv, WireFits, AllWellFormed, SessionLanes.Flushed;
    assert ThreadTraced(s.log.received, s.threads[i]);
  }

  lemma {:induction false} CountTwo(fs: seq<Frame>, p: nat, q: nat, tag: Tag)
    requires p < q < |fs| && Tagged(fs[p], tag) && Tagged(fs[q], tag)
    ensures Count(fs, tag) >= 2
  {
    hide Tagged;
    CountSplit(fs, q, tag);
    CountOnce(fs[..q], p, tag);
    CountOnce(fs[q..], 0, tag);
  }

  lemma {:induction false} CountOnce(fs: seq<Frame>, p: nat, tag: Tag)
    requires p < |fs| && Tagged(fs[p], tag)
    ensures Count(fs, tag) >= 1
  {
    hide Tagged;
    if p < |fs| - 1 {
      CountOnce(fs[..|fs| - 1], p, tag);
    }
  }

  /** The peer wrote an arrived frame at one position only. */
  lemma {:induction false} WrittenAtOnePlace(ca: Config, cb: Config, run: seq<Pair>, events: seq<PairEvent>, k: nat,
                                             i: nat, p: nat, q: nat)
    requires PairRun(ca, cb, run, events) && k < |run| && i < |run[k].a.threads| && HasArrival(run[k].a.threads[i])
    requires p < |run[k].b.log.wire| && run[k].b.log.wire[p] == ArrivedFrame(run[k].a.threads[i])
    requires q < |run[k].b.log.wire| && run[k].b.log.wire[q] == ArrivedFrame(run[k].a.threads[i])
    ensures p == q
  {
    hide PairRun, Run, Count, CountHandled, CountFate;
    var t, wire := run[k].a.threads[i], run[k].b.log.wire;
    var r, es := ProjectB(ca, cb, run, events, k);
    var tag := if t.task.Handle? then MessageOf(t.task.id) else ReplyOf(t.task.id);
    if t.task.Handle? {
      WrittenOnce(cb, r, es, |es|, t.task.id);
    } else {
      HandledAtMostOnce(ca, cb, run, events, k, t.task.id);
      RepliesConserved(cb, r, es, |es|, t.task.id);
      RunHandles(cb, r, es, |es|, t.task.id);
    }
    assert Count(wire, tag) <= 1;
    if p < q {
      CountTwo(wire, p, q, tag);
    } else if q < p {
      CountTwo(wire, q, p, tag);
    }
  }

  /** Comparing two arrivals that a side has recorded, of messages handled or of ACKs, tells exactly which of
      the two frames the peer wrote first, however handlers are scheduled and whatever was lost or rejected
      in between. */
  lemma {:induction false} ArrivalOrder(ca: Config, cb: Config, run: seq<Pair>, events: seq<PairEvent>, k: nat,
                                        i: nat, j: nat, p: nat, q: nat)
    requires PairRun(ca, cb, run, events) && k < |run|
    requires i < |run[k].a.threads| && HasArrival(run[k].a.threads[i])
    requires j < |run[k].a.threads| && HasArrival(run[k].a.threads[j])
    requires p < |run[k].b.log.wire| && run[k].b.log.wire[p] == ArrivedFrame(run[k].a.threads[i])
    requires q < |run[k].b.log.wire| && run[k].b.log.wire[q] == ArrivedFrame(run[k].a.threads[j])
    ensures ArrivalOf(run[k].a.threads[i]) < ArrivalOf(run[k].a.threads[j]) <==> p < q
  {
    hide PairRun, SideFacts, Carried, HasArrival, ArrivalOf, ArrivedFrame;
    var a, wire := run[k].a, run[k].b.log.wire;
    BothFacts(ca, cb, run, events, k);
    ArrivalRecorded(a, i);
    ArrivalRecorded(a, j);
    CarriedBA(ca, cb, run, events, k, MessageOf([]));
    var at := Positions(wire, run[k].ba, a.log.received, MessageOf([]));
    var px := PositionOf(wire, run[k].ba.transit, a.log.received, at, ArrivalOf(a.threads[i]) - 1);
    var py := PositionOf(wire, run[k].ba.transit, a.log.received, at, ArrivalOf(a.threads[j]) - 1);
    WrittenAtOnePlace(ca, cb, run, events, k, i, p, px);
    WrittenAtOnePlace(ca, cb, run, events, k, j, q, py);
    Ascending(a.log.received + run[k].ba.transit, at, wire);
  }

  lemma {:induction false} Positions(wire: seq<Frame>, link: Link, received: seq<Frame>, tag: Tag)
      returns (at: seq<int>)
    requires Carried(wire, link, received, tag)
    ensures Embedded(received + link.transit, at, wire)
  {
    hide Embedded, Counted;
    at :| Embedded(received + link.transit, at, wire);
  }

  lemma {:induction false} PositionOf(wire: seq<Frame>, transit: seq<Frame>, received: seq<Frame>,
                                      at: seq<int>, x: nat)
      returns (p: nat)
    requires Embedded(received + transit, at, wire) && x < |received|
    ensures x < |at| && p == at[x] && p < |wire| && wire[p] == received[x]
  {
    assert (received + transit)[x] == received[x];
    p := at[x];
  }

  lemma {:induction false} Ascending(fs: seq<Frame>, at: seq<int>, wire: seq<Frame>)
    requires Embedded(fs, at, wire)
    ensures forall x, y :: 0 <= x < |at| && 0 <= y < |at| ==> (at[x] < at[y] <==> x < y)
  {
  }

  /** The peer did write it. */
  lemma {:induction false} ArrivedWasWritten(ca: Config, cb: Config, run: seq<Pair>, events: seq<PairEvent>, k: nat,
                                             i: nat)
    requires PairRun(ca, cb, run, events) && k < |run| && i < |run[k].a.threads| && HasArrival(run[k].a.threads[i])
    ensures ArrivedFrame(run[k].a.threads[i]) in run[k].b.log.wire
    ensures !run[k].ba.skipped ==>
              var n := ArrivalOf(run[k].a.threads[i]);
              1 <= n <= |run[k].b.log.wire| && run[k].b.log.wire[n - 1] == ArrivedFrame(run[k].a.threads[i])
  {
    hide PairRun, SideFacts, Counted, HasArrival, ArrivalOf, ArrivedFrame, Embedded;
    BothFacts(ca, cb, run, events, k);
    ArrivalRecorded(run[k].a, i);
    CarriedBA(ca, cb, run, events, k, MessageOf([]));
    TransitWritten(run[k].b.log.wire, run[k].ba, run[k].a.log.received);
  }

  // ----- each message is in one place

  /** On its way to the peer. */
  function Outbound(p: Pair, id: Id): nat {
    CountItems(p.a.out.data, MessageOf(id)) + CountItems(p.a.out.control, MessageOf(id))
    + CountWriter(p.a.out, MessageOf(id)) + Count(p.ab.transit, MessageOf(id))
  }

  /** Its reply on the way back. */
  function Inbound(p: Pair, id: Id): nat {
    CountItems(p.b.out.control, ReplyOf(id)) + CountWriter(p.b.out, ReplyOf(id)) + Count(p.ba.transit, ReplyOf(id))
  }

  /** Lost to a cut, an oversized frame or the closing of a session. */
  function LostToClose(p: Pair, id: Id): nat {
    Count(p.a.log.dropped, MessageOf(id)) + Count(p.ab.lost, MessageOf(id))
    + CountFate(p.b.threads, id, GivenUp) + Count(p.b.log.dropped, ReplyOf(id)) + Count(p.ba.lost, ReplyOf(id))
  }

  /** Every message sent is in exactly one place: on its way out, in the peer's handler, on its way back
      as a reply, answered, or lost. */
  lemma {:induction false} OnePlace(ca: Config, cb: Config, run: seq<Pair>, events: seq<PairEvent>, k: nat, id: Id)
    requires PairRun(ca, cb, run, events) && k < |run|
    ensures var p := run[k];
            CountSent(p.a.threads, MessageOf(id))
            == Outbound(p, id) + CountFate(p.b.threads, id, Alive) + Inbound(p, id)
               + Count(p.a.log.received, ReplyOf(id)) + LostToClose(p, id)
    ensures CountSent(run[k].a.threads, MessageOf(id)) <= 1
  {
    hide PairRun, Run, Count, CountItems, CountSent, CountFate, CountWriter;
    CarriedAB(ca, cb, run, events, k, MessageOf(id));
    CarriedBA(ca, cb, run, events, k, ReplyOf(id));
    var r, es := Project(ca, cb, run, events, k);
    RunConserves(ca, r, es, |es|, MessageOf(id));
    WrittenOnce(ca, r, es, |es|, id);
    r, es := ProjectB(ca, cb, run, events, k);
    RepliesConserved(cb, r, es, |es|, id);
  }
}
