/** Two sessions exchanging heartbeats, with a clock: the handshake keeps both alive while round trips
    are shorter than the interval, and a silent peer is noticed. */
module HeartbeatTiming {
  import opened Texts
  import Heartbeats

  /** The sections of `send_heartbeat` still to come. */
  datatype Section = ToAwait | ToWrite | ToArm

  /** A `send_heartbeat` under way; `since` is when it was due. */
  datatype Sender = Sender(section: Section, since: nat)

  /** One side: `watchdog` and `echo` hold the times at which these timers run out. */
  datatype Party = Party(
    open: bool,
    awaiting: bool,
    watchdog: Option<nat>,
    echo: Option<nat>,
    senders: seq<Sender>,
    inbox: nat,
    ignored: nat)

  /** `due`, `written` and `legs` only measure the run: when the current hop was due, when its heartbeat
      was last written, and how long the one before took from writing to acceptance. */
  datatype World = World(now: nat, sides: seq<Party>, due: nat, written: nat, legs: nat)

  datatype Event =
    | Tick
    | EchoFires(i: nat)
    | Await(i: nat, j: nat)
    | Write(i: nat, j: nat)
    | Arm(i: nat, j: nat)
    | Receive(i: nat)
    | WatchdogFires(i: nat)

  function Other(i: nat): nat {
    if i == 0 then 1 else 0
  }

  /** Side 0 is the initiator, and its `send_heartbeat` has just begun. */
  function Beginning(): World {
    World(0, [Party(true, true, None, None, [Sender(ToAwait, 0)], 0, 0), Party(true, true, None, None, [], 0, 0)],
          0, 0, 0)
  }

  function With(w: World, i: nat, p: Party): World
    requires i < |w.sides|
  {
    w.(sides := w.sides[i := p])
  }

  function Remove(senders: seq<Sender>, j: nat): seq<Sender>
    requires j < |senders|
  {
    senders[..j] + senders[j + 1..]
  }

  predicate SenderAt(w: World, i: nat, j: nat, section: Section) {
    i < |w.sides| && j < |w.sides[i].senders| && w.sides[i].senders[j].section == section
  }

  function Advanced(p: Party, j: nat, section: Section): Party
    requires j < |p.senders|
  {
    p.(senders := p.senders[j := p.senders[j].(section := section)])
  }

  /** The frame reaches the other side's inbox: queueing and transit are the time until it is received. */
  function Written(w: World, i: nat, j: nat): World
    requires |w.sides| == 2 && SenderAt(w, i, j, ToWrite)
  {
    var k := Other(i);
    With(With(w, i, Advanced(w.sides[i], j, ToArm)), k, w.sides[k].(inbox := w.sides[k].inbox + 1)).(written := w.now)
  }

  function Received(interval: nat, w: World, i: nat): World
    requires i < |w.sides| && w.sides[i].inbox > 0
  {
    var p := w.sides[i];
    if !p.awaiting then With(w, i, p.(inbox := p.inbox - 1, ignored := p.ignored + 1))
    else
      With(w, i, p.(inbox := p.inbox - 1, awaiting := false, watchdog := None, echo := Some(w.now + interval)))
      .(due := w.now + interval, legs := if w.now > w.written then w.now - w.written else 0)
  }

  predicate Step(interval: nat, w: World, e: Event, w': World) {
    && |w.sides| == 2
    && match e
       case Tick => w' == w.(now := w.now + 1)
       case EchoFires(i) =>
         && i < 2 && w.sides[i].echo.Some? && w.sides[i].echo.value <= w.now
         && var p := w.sides[i].(echo := None);
            w' == With(w, i, if p.open then p.(senders := p.senders + [Sender(ToAwait, w.sides[i].echo.value)]) else p)
       case Await(i, j) =>
         SenderAt(w, i, j, ToAwait) && w' == With(w, i, Advanced(w.sides[i], j, ToWrite).(awaiting := true))
       case Write(i, j) => SenderAt(w, i, j, ToWrite) && w' == Written(w, i, j)
       case Arm(i, j) =>
         && SenderAt(w, i, j, ToArm)
         && w' == With(w, i, w.sides[i].(senders := Remove(w.sides[i].senders, j),
                                         watchdog := Some(w.now + Heartbeats.Doubled(interval))))
       case Receive(i) => i < 2 && w.sides[i].inbox > 0 && w' == Received(interval, w, i)
       case WatchdogFires(i) =>
         && i < 2 && w.sides[i].watchdog.Some? && w.sides[i].watchdog.value <= w.now
         && w' == With(w, i, w.sides[i].(open := false, watchdog := None))
  }

  ghost predicate StepAt(interval: nat, run: seq<World>, events: seq<Event>, k: nat)
    requires k < |events| && |run| == |events| + 1
  {
    Step(interval, run[k], events[k], run[k + 1])
  }

  ghost predicate Steps(interval: nat, run: seq<World>, events: seq<Event>) {
    |run| == |events| + 1 && forall k :: 0 <= k < |events| ==> StepAt(interval, run, events, k)
  }

  /** The answer to a heartbeat is due one interval after its acceptance, and the watchdog waits for two
      intervals, up to saturation: this is what is left for the round trip. */
  function Slack(interval: nat): nat {
    if 2 * interval <= U64_MAX then interval else if interval <= U64_MAX then U64_MAX - interval else 0
  }

  /** The assumption on the environment, so far: the round trip seen by the last writer is shorter than
      the slack (queueing and late timers included), and no send takes as long as an interval. */
  ghost predicate Timely(interval: nat, w: World) {
    && (w.now >= w.due ==> w.legs + (w.now - w.due) < Slack(interval))
    && (forall i, j :: 0 <= i < |w.sides| && 0 <= j < |w.sides[i].senders| ==>
          w.now < w.sides[i].senders[j].since + interval)
  }

  // ----- where the token is

  predicate OnlyArming(senders: seq<Sender>) {
    senders == [] || (|senders| == 1 && senders[0].section.ToArm?)
  }

  /** Armed early enough not to fire before `late`. */
  predicate ArmedUntil(p: Party, late: int) {
    p.watchdog.Some? ==> p.watchdog.value >= late
  }

  /** Side `i` sleeps until the hop is due; the other side, which wrote last, may still be arming. */
  predicate Sleeping(interval: nat, w: World, i: nat)
    requires |w.sides| == 2 && i < 2
  {
    var p, q := w.sides[i], w.sides[Other(i)];
    && p.echo == Some(w.due) && !p.awaiting && p.watchdog.None? && p.senders == [] && p.inbox == 0
    && q.echo.None? && q.awaiting && q.inbox == 0 && OnlyArming(q.senders)
    && ArmedUntil(q, w.due + Slack(interval) - w.legs)
    && (q.senders != [] ==> q.senders[0].since + interval <= w.due && q.watchdog.None?)
    && w.written + w.legs + interval == w.due && w.written <= w.now && w.legs < Slack(interval)
  }

  /** Side `i` is about to write the heartbeat that is due. */
  predicate Sending(interval: nat, w: World, i: nat)
    requires |w.sides| == 2 && i < 2
  {
    var p, q := w.sides[i], w.sides[Other(i)];
    && p.echo.None? && p.watchdog.None? && p.inbox == 0
    && |p.senders| == 1 && p.senders[0].since == w.due && !p.senders[0].section.ToArm?
    && (p.senders[0].section.ToWrite? ==> p.awaiting)
    && q.echo.None? && q.awaiting && q.inbox == 0 && q.senders == []
    && ArmedUntil(q, w.due + Slack(interval) - w.legs)
    && w.due <= w.now
  }

  /** The heartbeat of side `i` is on its way; side `i` may still be arming its watchdog. */
  predicate Flying(interval: nat, w: World, i: nat)
    requires |w.sides| == 2 && i < 2
  {
    var p, q := w.sides[i], w.sides[Other(i)];
    && p.echo.None? && p.awaiting && p.inbox == 0 && OnlyArming(p.senders)
    && (p.senders != [] ==> p.senders[0].since == w.due && p.watchdog.None?)
    && ArmedUntil(p, w.written + Heartbeats.Doubled(interval))
    && q.echo.None? && q.awaiting && q.inbox == 1 && q.senders == []
    && ArmedUntil(q, w.due + Slack(interval) - w.legs)
    && w.due <= w.written <= w.now
  }

  predicate TokenAt(interval: nat, w: World, i: nat)
    requires |w.sides| == 2 && i < 2
  {
    || Sleeping(interval, w, i)
    || Sending(interval, w, i)
    || Flying(interval, w, i)
  }

  predicate Alive(w: World) {
    |w.sides| == 2 && w.sides[0].open && w.sides[1].open && w.sides[0].ignored == 0 && w.sides[1].ignored == 0
  }

  predicate TokenInv(interval: nat, w: World) {
    Alive(w) && (TokenAt(interval, w, 0) || TokenAt(interval, w, 1))
  }

  lemma {:induction false} TokenBeginning(interval: nat)
    ensures TokenInv(interval, Beginning())
  {
    assert Sending(interval, Beginning(), 0);
  }

  lemma {:induction false} SleepingStep(interval: nat, w: World, i: nat, e: Event, w': World)
    requires interval >= 1 && Alive(w) && i < 2 && Sleeping(interval, w, i)
    requires Step(interval, w, e, w') && Timely(interval, w) && Timely(interval, w')
    ensures TokenInv(interval, w')
  {
    hide Written, Received, Flying;
    if e.EchoFires? {
      assert e.i == i;
      assert Sending(interval, w', i);
    } else {
      assert Sleeping(interval, w', i);
    }
  }

  lemma {:induction false} SendingStep(interval: nat, w: World, i: nat, e: Event, w': World)
    requires interval >= 1 && Alive(w) && i < 2 && Sending(interval, w, i)
    requires Step(interval, w, e, w') && Timely(interval, w) && Timely(interval, w')
    ensures TokenInv(interval, w')
  {
    hide Received, Sleeping, Heartbeats.Doubled, Slack;
    if e.Write? {
      assert Flying(interval, w', i);
    } else {
      assert Sending(interval, w', i);
    }
  }

  lemma {:induction false} FlyingAccepted(interval: nat, w: World, i: nat)
    requires interval >= 1 && Alive(w) && i < 2 && Flying(interval, w, i)
    requires Timely(interval, w)
    ensures TokenInv(interval, Received(interval, w, Other(i)))
  {
    assert Sleeping(interval, Received(interval, w, Other(i)), Other(i));
  }

  lemma {:induction false} FlyingStep(interval: nat, w: World, i: nat, e: Event, w': World)
    requires interval >= 1 && Alive(w) && i < 2 && Flying(interval, w, i)
    requires Step(interval, w, e, w') && Timely(interval, w)
    ensures TokenInv(interval, w')
  {
    hide Received;
    if e.Receive? {
      assert e.i == Other(i);
      FlyingAccepted(interval, w, i);
    } else {
      assert Flying(interval, w', i);
    }
  }

  lemma {:induction false} TokenStep(interval: nat, w: World, e: Event, w': World)
    requires interval >= 1 && TokenInv(interval, w)
    requires Step(interval, w, e, w') && Timely(interval, w) && Timely(interval, w')
    ensures TokenInv(interval, w')
  {
    hide Step, Timely, Sleeping, Sending, Flying;
    var i := if TokenAt(interval, w, 0) then 0 else 1;
    if Sleeping(interval, w, i) {
      SleepingStep(interval, w, i, e, w');
    } else if Sending(interval, w, i) {
      SendingStep(interval, w, i, e, w');
    } else {
      FlyingStep(interval, w, i, e, w');
    }
  }

  lemma {:induction false} RunKeepsToken(interval: nat, run: seq<World>, events: seq<Event>, k: nat)
    requires interval >= 1 && Steps(interval, run, events) && run[0] == Beginning() && k < |run|
    requires forall m :: 0 <= m <= k ==> Timely(interval, run[m])
    ensures TokenInv(interval, run[k])
  {
    hide Step, Timely, TokenInv;
    if k == 0 {
      TokenBeginning(interval);
    } else {
      RunKeepsToken(interval, run, events, k - 1);
      assert StepAt(interval, run, events, k - 1);
      TokenStep(interval, run[k - 1], events[k - 1], run[k]);
    }
  }

  function Pending(senders: seq<Sender>): nat {
    if senders == [] then 0
    else Pending(senders[..|senders| - 1]) + if senders[|senders| - 1].section.ToArm? then 0 else 1
  }

  /** Heartbeats on their way, waiting to be echoed, or about to be written, on one side. */
  function Tokens(p: Party): nat {
    Pending(p.senders) + p.inbox + if p.echo.Some? then 1 else 0
  }

  /** While every round trip is shorter than the interval: there is exactly one heartbeat, a side that
      awaits one holds no echo timer, none is ignored, no watchdog runs out, and both sides stay open. */
  lemma {:induction false} HeartbeatKeepsAlive(interval: nat, run: seq<World>, events: seq<Event>, k: nat)
    requires interval >= 1 && Steps(interval, run, events) && run[0] == Beginning() && k < |run|
    requires forall m :: 0 <= m <= k ==> Timely(interval, run[m])
    ensures |run[k].sides| == 2 && Tokens(run[k].sides[0]) + Tokens(run[k].sides[1]) == 1
    ensures forall i :: 0 <= i < 2 ==>
              var p := run[k].sides[i];
              && p.open && p.ignored == 0
              && !(p.awaiting && p.echo.Some?)
              && (p.watchdog.Some? ==> run[k].now < p.watchdog.value)
  {
    hide Step, Steps;
    RunKeepsToken(interval, run, events, k);
    var w := run[k];
    assert Timely(interval, w);
    OneToken(w.sides[0]);
    OneToken(w.sides[1]);
  }

  lemma {:induction false} OneToken(p: Party)
    ensures p.senders == [] ==> Pending(p.senders) == 0
    ensures |p.senders| == 1 ==> Pending(p.senders) == if p.senders[0].section.ToArm? then 0 else 1
  {
    if |p.senders| == 1 {
      assert p.senders[..0] == [];
    }
  }

  // ----- a silent peer

  /** The same sends are under way, perhaps further on. */
  predicate SameSends(a: seq<Sender>, b: seq<Sender>) {
    |a| == |b| && forall j :: 0 <= j < |a| ==> b[j].since == a[j].since
  }

  predicate Rests(p: Party, p': Party) {
    p'.open == p.open && p'.watchdog == p.watchdog && p'.echo == p.echo && SameSends(p.senders, p'.senders)
  }

  predicate Echoes(now: nat, p: Party, p': Party) {
    && p.echo.Some? && p.echo.value <= now
    && p'.open == p.open && p'.watchdog == p.watchdog && p'.echo.None?
    && p'.senders == if p.open then p.senders + [Sender(ToAwait, p.echo.value)] else p.senders
  }

  predicate Arms(interval: nat, now: nat, p: Party, p': Party, j: nat) {
    && j < |p.senders| && p'.senders == Remove(p.senders, j)
    && p'.open == p.open && p'.echo == p.echo && p'.watchdog == Some(now + Heartbeats.Doubled(interval))
  }

  predicate Closes(now: nat, p: Party, p': Party) {
    && p.watchdog.Some? && p.watchdog.value <= now
    && !p'.open && p'.watchdog.None? && p'.echo == p.echo && p'.senders == p.senders
  }

  /** What a step can do to a side, other than receive a heartbeat there. */
  ghost predicate PartyMoves(interval: nat, now: nat, p: Party, p': Party) {
    || Rests(p, p')
    || Echoes(now, p, p')
    || (exists j: nat :: Arms(interval, now, p, p', j))
    || Closes(now, p, p')
  }

  lemma {:induction false} SectionMoves(interval: nat, w: World, e: Event, w': World, i: nat)
    requires i < |w.sides| && Step(interval, w, e, w') && (e.Await? || e.Write? || e.Receive?) && e != Receive(i)
    ensures i < |w'.sides| && w'.now == w.now && Rests(w.sides[i], w'.sides[i])
  {
  }

  lemma {:induction false} SideMoves(interval: nat, w: World, e: Event, w': World, i: nat)
    requires i < |w.sides| && Step(interval, w, e, w') && e != Receive(i)
    ensures |w'.sides| == |w.sides| && w.now <= w'.now && PartyMoves(interval, w.now, w.sides[i], w'.sides[i])
    ensures w'.now > w.now ==> w'.sides == w.sides
  {
    hide Written, Received;
    if e.Await? || e.Write? || e.Receive? {
      SectionMoves(interval, w, e, w', i);
      SameLength(interval, w, e, w');
    } else if e.Arm? && e.i == i {
      assert Arms(interval, w.now, w.sides[i], w'.sides[i], e.j);
    }
  }

  lemma {:induction false} SameLength(interval: nat, w: World, e: Event, w': World)
    requires Step(interval, w, e, w')
    ensures |w'.sides| == |w.sides|
  {
  }

  /** Timers fire, and sends get through their sections, at most `late` after they are due. */
  ghost predicate Punctual(late: nat, w: World, i: nat) {
    i < |w.sides| &&
    var p := w.sides[i];
    && (p.echo.Some? ==> w.now <= p.echo.value + late)
    && (forall j :: 0 <= j < |p.senders| ==> w.now <= p.senders[j].since + late)
    && (p.watchdog.Some? ==> w.now <= p.watchdog.value + late)
  }

  /** A send that was due at this time is under way. */
  ghost predicate SendDue(p: Party, due: nat) {
    exists j :: 0 <= j < |p.senders| && p.senders[j].since == due
  }

  /** What holds of a side since it accepted a heartbeat at time `t`, as long as it receives nothing more. */
  ghost predicate Unanswered(interval: nat, p: Party, now: nat, t: nat) {
    && t <= now
    && (forall j :: 0 <= j < |p.senders| ==> p.senders[j].since <= t + interval && p.senders[j].since <= now)
    && (if p.echo.Some? then p.echo.value == t + interval else t + interval <= now)
    && (p.open ==> p.echo.Some? || p.watchdog.Some? || SendDue(p, t + interval))
  }

  lemma {:induction false} SendsKept(a: seq<Sender>, b: seq<Sender>, due: nat)
    requires SameSends(a, b) && exists j :: 0 <= j < |a| && a[j].since == due
    ensures exists j :: 0 <= j < |b| && b[j].since == due
  {
    var j :| 0 <= j < |a| && a[j].since == due;
    assert b[j].since == due;
  }

  lemma {:induction false} UnansweredMoves(interval: nat, p: Party, p': Party, now: nat, t: nat)
    requires Unanswered(interval, p, now, t) && PartyMoves(interval, now, p, p')
    ensures Unanswered(interval, p', now, t)
  {
    if Rests(p, p') {
      if SendDue(p, t + interval) {
        SendsKept(p.senders, p'.senders, t + interval);
      }
    } else if Echoes(now, p, p') {
      if p.open {
        assert p'.senders[|p.senders|].since == t + interval;
      }
    } else if j: nat :| Arms(interval, now, p, p', j) {
      assert forall m :: 0 <= m < |p'.senders| ==> p'.senders[m] in p.senders;
    }
  }

  /** No watchdog is armed beyond what a send due by `t + interval` allows. */
  predicate ArmedBy(interval: nat, late: nat, p: Party, t: nat) {
    p.watchdog.Some? ==> p.watchdog.value <= t + interval + late + Heartbeats.Doubled(interval)
  }

  lemma {:induction false} ArmedByMoves(interval: nat, late: nat, w: World, p': Party, i: nat, t: nat)
    requires i < |w.sides| && Unanswered(interval, w.sides[i], w.now, t) && PartyMoves(interval, w.now, w.sides[i], p')
    requires ArmedBy(interval, late, w.sides[i], t) && Punctual(late, w, i)
    ensures ArmedBy(interval, late, p', t)
  {
    if j: nat :| Arms(interval, w.now, w.sides[i], p', j) {
      assert w.now <= w.sides[i].senders[j].since + late;
    }
  }

  /** With no send under way at acceptance, none arms a watchdog before the echo is due. */
  ghost predicate Quiet(interval: nat, p: Party, now: nat, t: nat) {
    && (p.senders != [] ==> t + interval <= now)
    && (p.watchdog.Some? ==> t + interval + Heartbeats.Doubled(interval) <= p.watchdog.value)
    && (p.open || t + interval + Heartbeats.Doubled(interval) <= now)
  }

  lemma {:induction false} QuietMoves(interval: nat, p: Party, p': Party, now: nat, t: nat)
    requires Unanswered(interval, p, now, t) && Quiet(interval, p, now, t) && PartyMoves(interval, now, p, p')
    ensures Quiet(interval, p', now, t)
  {
    if j: nat :| Arms(interval, now, p, p', j) {
      assert p.senders != [];
    }
  }

  /** With punctual timers, an earlier send may arm its watchdog, but it is replaced before it runs out. */
  ghost predicate Replaced(interval: nat, p: Party, now: nat, t: nat) {
    && (p.watchdog.Some? ==> t + Heartbeats.Doubled(interval) <= p.watchdog.value)
    && (p.open && p.watchdog.Some? && p.watchdog.value < t + interval + Heartbeats.Doubled(interval) ==>
          p.echo.Some? || SendDue(p, t + interval))
    && (p.open || t + interval + Heartbeats.Doubled(interval) <= now)
  }

  lemma {:induction false} ReplacedArms(interval: nat, p: Party, p': Party, now: nat, t: nat, j: nat)
    requires Unanswered(interval, p, now, t) && Replaced(interval, p, now, t) && Arms(interval, now, p, p', j)
    ensures Replaced(interval, p', now, t)
  {
  }

  lemma {:induction false} ReplacedMoves(interval: nat, late: nat, w: World, p': Party, i: nat, t: nat)
    requires interval + late < Heartbeats.Doubled(interval) && i < |w.sides| && Punctual(late, w, i)
    requires var p := w.sides[i]; Unanswered(interval, p, w.now, t) && Replaced(interval, p, w.now, t)
    requires PartyMoves(interval, w.now, w.sides[i], p')
    ensures Replaced(interval, p', w.now, t)
  {
    hide Heartbeats.Doubled;
    var p := w.sides[i];
    if Rests(p, p') {
      if SendDue(p, t + interval) {
        SendsKept(p.senders, p'.senders, t + interval);
      }
    } else if Echoes(w.now, p, p') {
      if p.open {
        assert p'.senders[|p.senders|].since == t + interval;
      }
    } else if j: nat :| Arms(interval, w.now, p, p', j) {
      ReplacedArms(interval, p, p', w.now, t, j);
    }
  }

  /** Side `i` accepts a heartbeat in state `before`, which leads to `run[0]`, and receives none from then on.
      No send under way was due after that moment; nothing else is assumed of either side. */
  ghost predicate Silence(interval: nat, before: World, run: seq<World>, events: seq<Event>, i: nat) {
    && i < |before.sides| && before.sides[i].open && before.sides[i].awaiting
    && (forall j :: 0 <= j < |before.sides[i].senders| ==> before.sides[i].senders[j].since <= before.now)
    && Steps(interval, run, events) && Step(interval, before, Receive(i), run[0])
    && forall m :: 0 <= m < |events| ==> events[m] != Receive(i)
  }

  lemma {:induction false} SilenceBegins(interval: nat, late: nat, before: World, run: seq<World>,
                                         events: seq<Event>, i: nat)
    requires Silence(interval, before, run, events, i)
    ensures i < |run[0].sides| && run[0].now == before.now && run[0].sides[i].senders == before.sides[i].senders
    ensures Unanswered(interval, run[0].sides[i], before.now, before.now)
    ensures ArmedBy(interval, late, run[0].sides[i], before.now)
    ensures before.sides[i].senders == [] ==> Quiet(interval, run[0].sides[i], before.now, before.now)
    ensures Replaced(interval, run[0].sides[i], before.now, before.now)
  {
  }

  lemma {:induction false} SilenceGoesOn(interval: nat, before: World, run: seq<World>, events: seq<Event>,
                                         i: nat, k: nat)
    requires Silence(interval, before, run, events, i) && k < |run|
    ensures i < |run[k].sides| && Unanswered(interval, run[k].sides[i], run[k].now, before.now)
  {
    hide Step, PartyMoves;
    SilenceBegins(interval, 0, before, run, events, i);
    if k > 0 {
      SilenceGoesOn(interval, before, run, events, i, k - 1);
      assert StepAt(interval, run, events, k - 1);
      SideMoves(interval, run[k - 1], events[k - 1], run[k], i);
      UnansweredMoves(interval, run[k - 1].sides[i], run[k].sides[i], run[k - 1].now, before.now);
    }
  }

  lemma {:induction false} RunArmedBy(interval: nat, late: nat, before: World, run: seq<World>, events: seq<Event>,
                                      i: nat, k: nat)
    requires Silence(interval, before, run, events, i) && k < |run|
    requires forall m :: 0 <= m < k ==> Punctual(late, run[m], i)
    ensures i < |run[k].sides| && ArmedBy(interval, late, run[k].sides[i], before.now)
  {
    hide Step, PartyMoves, Unanswered, ArmedBy, Punctual;
    SilenceBegins(interval, late, before, run, events, i);
    SilenceGoesOn(interval, before, run, events, i, k);
    if k > 0 {
      RunArmedBy(interval, late, before, run, events, i, k - 1);
      SilenceGoesOn(interval, before, run, events, i, k - 1);
      assert StepAt(interval, run, events, k - 1);
      SideMoves(interval, run[k - 1], events[k - 1], run[k], i);
      ArmedByMoves(interval, late, run[k - 1], run[k].sides[i], i, before.now);
    }
  }

  /** When side `i` has accepted a heartbeat at time `t` and hears nothing more, it is closed after three
      intervals, plus twice the lateness of timers. Nothing is assumed about the other side or about what
      was going on before. */
  lemma {:induction false} SilentPeerDetected(interval: nat, late: nat, before: World, run: seq<World>,
                                              events: seq<Event>, i: nat, k: nat)
    requires Silence(interval, before, run, events, i) && k < |run|
    requires forall m :: 0 <= m <= k ==> Punctual(late, run[m], i)
    ensures i < |run[k].sides|
    ensures run[k].sides[i].open ==> run[k].now <= before.now + interval + Heartbeats.Doubled(interval) + 2 * late
    ensures run[k].sides[i].open && 2 * interval <= U64_MAX ==> run[k].now <= before.now + 3 * interval + 2 * late
  {
    hide Step;
    RunArmedBy(interval, late, before, run, events, i, k);
    SilenceGoesOn(interval, before, run, events, i, k);
    assert Punctual(late, run[k], i);
  }

  /** Unless a send was already under way when the heartbeat was accepted, the side is not closed any earlier
      than three intervals later, however late timers and sends are. */
  lemma {:induction false} NotClosedBefore(interval: nat, before: World, run: seq<World>, events: seq<Event>,
                                           i: nat, k: nat)
    requires Silence(interval, before, run, events, i) && k < |run| && before.sides[i].senders == []
    ensures i < |run[k].sides| && Quiet(interval, run[k].sides[i], run[k].now, before.now)
    ensures run[k].now < before.now + interval + Heartbeats.Doubled(interval) ==> run[k].sides[i].open
    ensures 2 * interval <= U64_MAX && run[k].now < before.now + 3 * interval ==> run[k].sides[i].open
  {
    hide Step, PartyMoves;
    SilenceBegins(interval, 0, before, run, events, i);
    if k > 0 {
      NotClosedBefore(interval, before, run, events, i, k - 1);
      SilenceGoesOn(interval, before, run, events, i, k - 1);
      assert StepAt(interval, run, events, k - 1);
      SideMoves(interval, run[k - 1], events[k - 1], run[k], i);
      QuietMoves(interval, run[k - 1].sides[i], run[k].sides[i], run[k - 1].now, before.now);
    }
  }

  lemma {:induction false} RunReplaced(interval: nat, late: nat, before: World, run: seq<World>, events: seq<Event>,
                                       i: nat, k: nat)
    requires Silence(interval, before, run, events, i) && k < |run| && interval + late < Heartbeats.Doubled(interval)
    requires forall m :: 0 <= m < k ==> Punctual(late, run[m], i)
    ensures i < |run[k].sides| && Replaced(interval, run[k].sides[i], run[k].now, before.now)
  {
    hide Step, PartyMoves, Punctual;
    SilenceBegins(interval, late, before, run, events, i);
    if k > 0 {
      RunReplaced(interval, late, before, run, events, i, k - 1);
      SilenceGoesOn(interval, before, run, events, i, k - 1);
      assert StepAt(interval, run, events, k - 1);
      SideMoves(interval, run[k - 1], events[k - 1], run[k], i);
      ReplacedMoves(interval, late, run[k - 1], run[k].sides[i], i, before.now);
    }
  }

  /** One interval after it accepted a heartbeat, and no sooner, a side is to send its own: until then the echo
      timer runs to exactly that moment, and it has fired once that moment is further back than timers are late. */
  lemma {:induction false} EchoDueExactly(interval: nat, late: nat, before: World, run: seq<World>,
                                          events: seq<Event>, i: nat, k: nat)
    requires Silence(interval, before, run, events, i) && k < |run|
    ensures i < |run[k].sides|
    ensures run[k].now < before.now + interval ==> run[k].sides[i].echo == Some(before.now + interval)
    ensures Punctual(late, run[k], i) && run[k].now > before.now + interval + late ==> run[k].sides[i].echo.None?
    ensures run[k].sides[i].echo.None? && run[k].sides[i].open ==>
              run[k].sides[i].watchdog.Some? || SendDue(run[k].sides[i], before.now + interval)
  {
    hide Silence;
    SilenceGoesOn(interval, before, run, events, i, k);
  }

  /** When a silent peer is noticed. While timers and sends are less than an interval late, whatever was under
      way at acceptance, the side stays open until three intervals later and is closed from then on, within
      twice the lateness. Punctual timers make that moment exact: one interval until its own heartbeat is
      sent, and two until the watchdog armed then runs out. */
  lemma {:induction false} SilentPeerClosing(interval: nat, late: nat, before: World, run: seq<World>,
                                             events: seq<Event>, i: nat, k: nat)
    requires Silence(interval, before, run, events, i) && k < |run| && interval + late < Heartbeats.Doubled(interval)
    requires forall m :: 0 <= m <= k ==> Punctual(late, run[m], i)
    ensures i < |run[k].sides|
    ensures var due := before.now + interval + Heartbeats.Doubled(interval);
            && (run[k].now < due ==> run[k].sides[i].open)
            && (run[k].now > due + 2 * late ==> !run[k].sides[i].open)
    ensures 2 * interval <= U64_MAX ==>
              && (run[k].now < before.now + 3 * interval ==> run[k].sides[i].open)
              && (run[k].now > before.now + 3 * interval + 2 * late ==> !run[k].sides[i].open)
  {
    hide Silence, Punctual;
    RunReplaced(interval, late, before, run, events, i, k);
    SilentPeerDetected(interval, late, before, run, events, i, k);
  }

  // ----- two intervals are not enough, and when they are

  /** Time passes and nothing else happens. */
  lemma {:induction false} Ticks(interval: nat, w: World, n: nat) returns (run: seq<World>, events: seq<Event>)
    requires |w.sides| == 2
    ensures |events| == n && Steps(interval, run, events) && run[0] == w && run[n] == w.(now := w.now + n)
    ensures forall m :: 0 <= m < n ==> events[m] == Tick
    ensures forall m :: 0 <= m <= n ==> run[m] == w.(now := w.now + m)
  {
    run := seq(n + 1, m requires 0 <= m <= n => w.(now := w.now + m));
    events := seq(n, m => Tick);
    forall k | 0 <= k < n ensures StepAt(interval, run, events, k) {
      assert Step(interval, run[k], Tick, run[k + 1]);
    }
  }

  lemma {:induction false} Chained(interval: nat, run: seq<World>, events: seq<Event>, more: seq<World>,
                                   steps: seq<Event>)
    requires Steps(interval, run, events) && Steps(interval, more, steps) && run[|events|] == more[0]
    ensures Steps(interval, run + more[1..], events + steps)
    ensures (run + more[1..])[0] == run[0] && (run + more[1..])[|events| + |steps|] == more[|steps|]
    ensures forall m :: 0 <= m <= |events| ==> (run + more[1..])[m] == run[m]
    ensures forall m :: 0 <= m <= |steps| ==> (run + more[1..])[|events| + m] == more[m]
  {
    hide Step;
    var r, es := run + more[1..], events + steps;
    assert forall m :: 0 <= m < |more| ==> r[|events| + m] == more[m];
    forall k | 0 <= k < |es| ensures StepAt(interval, r, es, k) {
      if k < |events| {
        assert StepAt(interval, run, events, k);
      } else {
        assert StepAt(interval, more, steps, k - |events|);
      }
    }
  }

  lemma {:induction false} OneStep(interval: nat, w: World, e: Event, w': World)
    requires Step(interval, w, e, w')
    ensures Steps(interval, [w, w'], [e])
  {
    assert StepAt(interval, [w, w'], [e], 0);
  }

  /** The send `j` of side `i`, at whatever section, gets to the point of arming its watchdog. */
  lemma {:induction false} SendGetsThrough(interval: nat, w: World, i: nat)
    returns (run: seq<World>, events: seq<Event>)
    requires |w.sides| == 2 && i < 2 && w.sides[i].senders != []
    ensures Steps(interval, run, events) && run[0] == w
    ensures forall m :: 0 <= m < |events| ==> events[m] != Receive(i)
    ensures var w' := run[|events|];
            && |w'.sides| == 2 && w'.now == w.now && w'.sides[i].open == w.sides[i].open
            && SenderAt(w', i, 0, ToArm)
    decreases match w.sides[i].senders[0].section case ToAwait => 2 case ToWrite => 1 case ToArm => 0
  {
    if SenderAt(w, i, 0, ToArm) {
      return [w], [];
    }
    var e, w' := Await(i, 0), With(w, i, Advanced(w.sides[i], 0, ToWrite).(awaiting := true));
    if SenderAt(w, i, 0, ToWrite) {
      e, w' := Write(i, 0), Written(w, i, 0);
    }
    OneStep(interval, w, e, w');
    var more, steps := SendGetsThrough(interval, w', i);
    Chained(interval, [w, w'], [e], more, steps);
    run, events := [w, w'] + more[1..], [e] + steps;
  }

  /** A run that closes side `i` before three intervals have passed since time `t`, hearing nothing. */
  ghost predicate ClosesEarly(interval: nat, w: World, run: seq<World>, events: seq<Event>, i: nat, t: nat) {
    && Steps(interval, run, events) && run[0] == w
    && (forall m :: 0 <= m < |events| ==> events[m] != Receive(i))
    && var last := run[|events|];
       && i < |last.sides| && !last.sides[i].open
       && last.now < t + interval + if 2 * interval <= U64_MAX then 2 * interval else U64_MAX
  }

  ghost predicate CanCloseEarly(interval: nat, w: World, i: nat, t: nat) {
    exists run, events :: ClosesEarly(interval, w, run, events, i, t)
  }

  /** From a send under way: its watchdog is armed now and runs out two intervals later. */
  lemma {:induction false} SendClosesEarly(interval: nat, w: World, i: nat)
    returns (run: seq<World>, events: seq<Event>)
    requires interval >= 1 && |w.sides| == 2 && i < 2 && w.sides[i].senders != []
    ensures ClosesEarly(interval, w, run, events, i, w.now)
  {
    var wait := Heartbeats.Doubled(interval);
    run, events := SendGetsThrough(interval, w, i);
    var w1 := run[|events|];
    var p := w1.sides[i];
    var w2 := With(w1, i, p.(senders := Remove(p.senders, 0), watchdog := Some(w1.now + wait)));
    OneStep(interval, w1, Arm(i, 0), w2);
    Chained(interval, run, events, [w1, w2], [Arm(i, 0)]);
    run, events := run + [w1, w2][1..], events + [Arm(i, 0)];
    var more, steps := Ticks(interval, w2, wait);
    Chained(interval, run, events, more, steps);
    run, events := run + more[1..], events + steps;
    var w3 := w2.(now := w2.now + wait);
    var w4 := With(w3, i, w3.sides[i].(open := false, watchdog := None));
    OneStep(interval, w3, WatchdogFires(i), w4);
    Chained(interval, run, events, [w3, w4], [WatchdogFires(i)]);
    run, events := run + [w3, w4][1..], events + [WatchdogFires(i)];
  }

  /** Exactly when a silent peer can be noticed sooner than three intervals after the last heartbeat accepted,
      namely from two intervals on: when a send was under way at that moment. */
  lemma {:induction false} EarlyCloseExactly(interval: nat, before: World, w: World, i: nat)
    requires interval >= 1 && Silence(interval, before, [w], [], i)
    ensures CanCloseEarly(interval, w, i, before.now) <==> before.sides[i].senders != []
  {
    SilenceBegins(interval, 0, before, [w], [], i);
    if before.sides[i].senders != [] {
      var run, events := SendClosesEarly(interval, w, i);
      assert ClosesEarly(interval, w, run, events, i, before.now);
    } else if run, events :| ClosesEarly(interval, w, run, events, i, before.now) {
      NotClosedBefore(interval, before, run, events, i, |events|);
    }
  }

  predicate AtLeastTwo(interval: nat, p: Party, now: nat, t: nat) {
    && (p.watchdog.Some? ==> t + Heartbeats.Doubled(interval) <= p.watchdog.value)
    && (p.open || t + Heartbeats.Doubled(interval) <= now)
  }

  /** In no case is it noticed within two intervals. */
  lemma {:induction false} NotClosedWithinTwo(interval: nat, before: World, run: seq<World>, events: seq<Event>,
                                              i: nat, k: nat)
    requires Silence(interval, before, run, events, i) && k < |run|
    ensures i < |run[k].sides| && AtLeastTwo(interval, run[k].sides[i], run[k].now, before.now)
    ensures 2 * interval <= U64_MAX && !run[k].sides[i].open ==> before.now + 2 * interval <= run[k].now
  {
    hide Step;
    SilenceBegins(interval, 0, before, run, events, i);
    SilenceGoesOn(interval, before, run, events, i, k);
    if k > 0 {
      NotClosedWithinTwo(interval, before, run, events, i, k - 1);
      SilenceGoesOn(interval, before, run, events, i, k - 1);
      assert StepAt(interval, run, events, k - 1);
      SideMoves(interval, run[k - 1], events[k - 1], run[k], i);
    }
  }

  /** The peer after it accepted the first heartbeat, at time 0, and while it sends its own. */
  function Listener(interval: nat, m: nat): Party {
    if m <= interval + 1 then Party(true, false, None, Some(interval), [], 0, 0)
    else if m == interval + 2 then Party(true, false, None, None, [Sender(ToAwait, interval)], 0, 0)
    else if m == interval + 3 then Party(true, true, None, None, [Sender(ToWrite, interval)], 0, 0)
    else if m == interval + 4 then Party(true, true, None, None, [Sender(ToArm, interval)], 0, 0)
    else Party(true, true, Some(interval + Heartbeats.Doubled(interval)), None, [], 0, 0)
  }

  /** The initiator once its first heartbeat is written, and from then on. */
  function Initiator(inbox: nat): Party {
    Party(true, true, None, None, [Sender(ToArm, 0)], inbox, 0)
  }

  /** The first heartbeat is on its way. */
  function FirstWritten(): World {
    World(0, [Initiator(0), Party(true, true, None, None, [], 1, 0)], 0, 0, 0)
  }

  /** State `m` of a run in which the initiator falls silent after its first heartbeat. */
  function SilentWorld(interval: nat, m: nat): World {
    if m == 0 then FirstWritten()
    else
      var now := if m <= interval + 1 then m - 1 else if m <= interval + 5 then interval else m - 5;
      var written := if m < interval + 4 then 0 else interval;
      World(now, [Initiator(if m < interval + 4 then 0 else 1), Listener(interval, m)], interval, written, 0)
  }

  function SilentEvent(interval: nat, m: nat): Event {
    if m == 0 then Receive(1)
    else if m == interval + 1 then EchoFires(1)
    else if m == interval + 2 then Await(1, 0)
    else if m == interval + 3 then Write(1, 0)
    else if m == interval + 4 then Arm(1, 0)
    else Tick
  }

  lemma {:induction false} SilentStep(interval: nat, m: nat)
    ensures Step(interval, SilentWorld(interval, m), SilentEvent(interval, m), SilentWorld(interval, m + 1))
  {
    hide Heartbeats.Doubled;
    var w, w' := SilentWorld(interval, m), SilentWorld(interval, m + 1);
    if m == 0 {
      assert w.sides[1].(inbox := 0, awaiting := false, watchdog := None, echo := Some(interval)) == w'.sides[1];
      assert With(w, 1, w'.sides[1]).sides == w'.sides;
    } else if m == interval + 1 {
      assert [] + [Sender(ToAwait, interval)] == w'.sides[1].senders;
      assert With(w, 1, w'.sides[1]).sides == w'.sides;
    } else if m == interval + 2 {
      assert Advanced(w.sides[1], 0, ToWrite).(awaiting := true) == w'.sides[1];
      assert With(w, 1, w'.sides[1]).sides == w'.sides;
    } else if m == interval + 3 {
      assert Advanced(w.sides[1], 0, ToArm) == w'.sides[1];
      assert Written(w, 1, 0).sides == w'.sides;
    } else if m == interval + 4 {
      assert Remove(w.sides[1].senders, 0) == [];
      assert With(w, 1, w'.sides[1]).sides == w'.sides;
    }
  }

  /** The state in which that run begins is reached from the beginning. */
  lemma {:induction false} FirstHeartbeat(interval: nat) returns (sent: World)
    ensures Steps(interval, [Beginning(), sent, FirstWritten()], [Await(0, 0), Write(0, 0)])
  {
    sent := With(Beginning(), 0, Advanced(Beginning().sides[0], 0, ToWrite).(awaiting := true));
    var run, events := [Beginning(), sent, FirstWritten()], [Await(0, 0), Write(0, 0)];
    assert Advanced(sent.sides[0], 0, ToArm) == Initiator(0);
    assert Written(sent, 0, 0).sides == FirstWritten().sides;
    assert StepAt(interval, run, events, 0);
    assert StepAt(interval, run, events, 1);
  }

  /** A run from just after the first heartbeat was written, with timers and sends that are never late: side 1
      accepts it at time 0, hears nothing more, and is still open after two intervals, one tick before the
      third is over. */
  lemma {:induction false} SilentBeyondTwo(interval: nat) returns (run: seq<World>, events: seq<Event>)
    requires interval >= 1
    ensures |run| > 1 && Steps(interval, run, events) && run[0] == FirstWritten() && events[0] == Receive(1)
    ensures Silence(interval, run[0], run[1..], events[1..], 1)
    ensures forall m :: 1 <= m < |run| ==> Punctual(0, run[m], 1)
    ensures var last := run[|events|];
            && last.now + 1 == interval + Heartbeats.Doubled(interval)
            && (2 * interval <= U64_MAX ==> last.now + 1 == 3 * interval)
            && |last.sides| == 2 && last.sides[1].open
  {
    hide Step, SilentEvent;
    var n := interval + 4 + Heartbeats.Doubled(interval);
    run := seq(n + 1, m requires 0 <= m <= n => SilentWorld(interval, m));
    events := seq(n, m requires 0 <= m < n => SilentEvent(interval, m));
    forall k | 0 <= k < n ensures StepAt(interval, run, events, k) {
      SilentStep(interval, k);
    }
    forall k | 0 <= k < n - 1 ensures StepAt(interval, run[1..], events[1..], k) && events[1..][k] != Receive(1) {
      assert StepAt(interval, run, events, k + 1);
      ReceivesOnce(interval, k + 1);
    }
    assert StepAt(interval, run, events, 0);
    ReceivesOnce(interval, 0);
  }

  lemma {:induction false} ReceivesOnce(interval: nat, m: nat)
    ensures SilentEvent(interval, m) == Receive(1) <==> m == 0
  {
  }
}
