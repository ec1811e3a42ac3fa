/** Accepted upgrades and `close_sessions` (`src/server.rs`, `src/axum.rs`): no accepted upgrade slips past. */
module Upgrades {
  import opened Texts
  import R = Resources

  /** Where the task of `on_upgrade` is. `Reserved`: the connection permit is taken, the pending count not
      yet raised. From `Pending` to `Registered` the guard is alive; it holds the permit until the session
      takes it. */
  datatype Pc =
    | Reserved
    | Pending
    | Started(session: nat)
    | Registered(session: nat)
    | Serving(session: nat)
    | Removed(session: nat)
    | Failing
    | Failed

  datatype Upgrade = Upgrade(endpoint: nat, pc: Pc)

  /** `released`: the session's task has ended and dropped its connection permit. */
  datatype SessionState = SessionState(open: bool, closed: bool, released: bool)

  datatype Endpoint = Endpoint(pending: int, sessions: set<nat>)

  /** The program counter of a call of `close_sessions`. */
  datatype Phase =
    | Waiting(next: nat)
    | Collecting(next: nat)
    | Closing(todo: set<nat>)
    | Awaiting(todo: set<nat>)
    | Returned

  /** `accepted` remembers which upgrades had been accepted when the call was made. */
  datatype Closer = Closer(endpoints: nat, accepted: set<nat>, collected: set<nat>, phase: Phase)

  datatype Server = Server(
    endpoints: seq<Endpoint>,
    upgrades: seq<Upgrade>,
    sessions: seq<SessionState>,
    connections: int,
    closers: seq<Closer>)

  datatype Event =
    | AddEndpoint
    | Reserve(endpoint: nat)
    | CountUp(u: nat)
    | Fail(u: nat)
    | ReleaseFailed(u: nat)
    | Start(u: nat)
    | Register(u: nat)
    | DropGuard(u: nat)
    | Remove(u: nat)
    | Shut(s: nat)
    | Publish(s: nat)
    | ReleaseSession(s: nat)
    | CallClose
    | SeeZero(c: nat)
    | BeginCollect(c: nat)
    | Collect(c: nat)
    | BeginClose(c: nat)
    | CloseOne(c: nat, s: nat)
    | BeginAwait(c: nat)
    | SawClosed(c: nat, s: nat)
    | Return(c: nat)

  predicate Guarded(pc: Pc) {
    pc.Pending? || pc.Started? || pc.Registered?
  }

  predicate OwnsPermit(pc: Pc) {
    pc.Reserved? || pc.Pending? || pc.Failing?
  }

  predicate HasSession(pc: Pc) {
    pc.Started? || pc.Registered? || pc.Serving? || pc.Removed?
  }

  predicate Over(pc: Pc) {
    pc.Failing? || pc.Failed?
  }

  /** The request has been answered with an upgrade. */
  predicate Accepted(pc: Pc) {
    !pc.Reserved?
  }

  // ----- the endpoint's own operations

  /** The fields of an endpoint that upgrades and sessions change. */
  class EndpointState {
    var pending: int
    var sessions: set<nat>

    function View(): Endpoint
      reads this
    {
      Endpoint(pending, sessions)
    }

    constructor ()
      ensures View() == Endpoint(0, {})
    {
      pending, sessions := 0, {};
    }

    method BeginUpgrade()
      modifies this
      ensures View() == Raised(old(View()))
    {
      pending := pending + 1;
    }

    method DropGuard()
      modifies this
      ensures View() == Lowered(old(View()))
    {
      pending := pending - 1;
    }

    method RegisterSession(s: nat)
      modifies this
      ensures View() == Inserted(old(View()), s)
    {
      sessions := sessions + {s};
    }

    method RemoveSession(s: nat)
      modifies this
      ensures View() == Without(old(View()), s)
    {
      sessions := sessions - {s};
    }
  }

  /** The guard of an accepted upgrade: it keeps the endpoint's count raised and, until a session takes it,
      owns the connection permit. */
  class PendingUpgrade {
    const endpoint: EndpointState
    var permit: Option<R.Permit>

    constructor (endpoint: EndpointState, permit: R.Permit)
      ensures this.endpoint == endpoint && this.permit == Some(permit)
    {
      this.endpoint := endpoint;
      this.permit := Some(permit);
    }

    method Take() returns (taken: R.Permit)
      requires permit.Some?
      modifies this
      ensures permit.None? && taken == old(permit).value
    {
      taken := permit.value;
      permit := None;
    }

    /** `drop`: first the count, then whatever permit is left. */
    method Drop(budget: R.ResourceBudget, ghost k: nat)
      requires budget.Valid() && (permit.Some? ==> k < |budget.live| && budget.live[k] == permit.value)
      modifies this, endpoint, budget
      ensures budget.Valid() && permit.None?
      ensures endpoint.View() == Lowered(old(endpoint.View()))
      ensures budget.live == if old(permit).Some? then R.Without(old(budget.live), k) else old(budget.live)
    {
      endpoint.DropGuard();
      if permit.Some? {
        budget.Drop(permit.value, k);
        permit := None;
      }
    }
  }

  /** `on_upgrade` from admission to the release of the guard, undisturbed. `upgraded` says whether the HTTP
      connection was handed over in time; `session` is what `start_session` creates. A refused or failed
      upgrade leaves endpoint and budget as they were; a successful one leaves its session registered and
      owning the connection permit, and the count as it was. */
  method OnUpgrade(endpoint: EndpointState, budget: R.ResourceBudget, upgraded: bool, session: nat)
    returns (served: Option<R.Permit>)
    requires budget.Valid()
    modifies endpoint, budget
    ensures budget.Valid()
    ensures served.Some? <==>
              upgraded && R.WithinLimits(old(budget.Snapshot()).Charge(R.Permit(R.Connection, 0)), budget.limits)
    ensures served.None? ==> endpoint.View() == old(endpoint.View()) && budget.live == old(budget.live)
    ensures served.Some? ==> endpoint.View() == Inserted(old(endpoint.View()), session)
                             && budget.live == old(budget.live) + [served.value]
  {
    var connection := budget.Reserve(R.Connection, 0);
    if connection.None? {
      return None;
    }
    endpoint.BeginUpgrade();
    var pending := new PendingUpgrade(endpoint, connection.value);
    if !upgraded {
      pending.Drop(budget, |budget.live| - 1);
      assert budget.live == old(budget.live);
      return None;
    }
    var owned := pending.Take();
    endpoint.RegisterSession(session);
    assert session in endpoint.sessions && endpoint.pending > old(endpoint.pending);
    pending.Drop(budget, 0);
    served := Some(owned);
  }

  /** A hook runs only while it holds a handler permit. */
  method RunHook(budget: R.ResourceBudget) returns (ran: bool)
    requires budget.Valid()
    modifies budget
    ensures budget.Valid() && budget.live == old(budget.live) && budget.Snapshot() == old(budget.Snapshot())
    ensures ran <==> R.WithinLimits(old(budget.Snapshot()).Charge(R.Permit(R.Handler, 0)), budget.limits)
  {
    var permit := budget.Reserve(R.Handler, 0);
    ran := permit.Some?;
    if ran {
      budget.Drop(permit.value, |budget.live| - 1);
      assert budget.live == old(budget.live);
    }
  }

  /** `serve_session` undisturbed, for a session that closes in time; the flags say which hooks are set. A
      session whose connect hook gets no permit is closed by the server itself; in every case it is gone from
      the endpoint before the disconnect hook, and the budget is as before. */
  method ServeSession(endpoint: EndpointState, budget: R.ResourceBudget, session: nat, connect: bool, disconnect: bool)
    returns (greeted: bool, shut: bool, parted: bool)
    requires budget.Valid()
    modifies endpoint, budget
    ensures budget.Valid() && budget.live == old(budget.live)
    ensures endpoint.View() == Without(old(endpoint.View()), session)
    ensures var room := R.WithinLimits(old(budget.Snapshot()).Charge(R.Permit(R.Handler, 0)), budget.limits);
            && (greeted <==> connect && room) && (shut <==> connect && !room) && (parted <==> disconnect && room)
  {
    greeted, shut, parted := false, false, false;
    if connect {
      greeted := RunHook(budget);
      shut := !greeted;
    }
    endpoint.RemoveSession(session);
    if disconnect {
      parted := RunHook(budget);
    }
  }

  function Raised(e: Endpoint): Endpoint { e.(pending := e.pending + 1) }

  function Lowered(e: Endpoint): Endpoint { e.(pending := e.pending - 1) }

  function Inserted(e: Endpoint, s: nat): Endpoint { e.(sessions := e.sessions + {s}) }

  function Without(e: Endpoint, s: nat): Endpoint { e.(sessions := e.sessions - {s}) }

  // ----- steps

  predicate UpgradeAt(v: Server, u: nat) {
    u < |v.upgrades| && v.upgrades[u].endpoint < |v.endpoints|
  }

  function Moved(v: Server, u: nat, pc: Pc): Server
    requires u < |v.upgrades|
  {
    v.(upgrades := v.upgrades[u := v.upgrades[u].(pc := pc)])
  }

  function Endpointed(v: Server, u: nat, e: Endpoint): Server
    requires UpgradeAt(v, u)
  {
    v.(endpoints := v.endpoints[v.upgrades[u].endpoint := e])
  }

  function EndpointOf(v: Server, u: nat): Endpoint
    requires UpgradeAt(v, u)
  {
    v.endpoints[v.upgrades[u].endpoint]
  }

  predicate UpgradeStep(v: Server, e: Event, v': Server) {
    match e
    case AddEndpoint => v' == v.(endpoints := v.endpoints + [Endpoint(0, {})])
    case Reserve(endpoint) =>
      && endpoint < |v.endpoints|
      && v' == v.(connections := v.connections + 1, upgrades := v.upgrades + [Upgrade(endpoint, Reserved)])
    case CountUp(u) =>
      && UpgradeAt(v, u) && v.upgrades[u].pc.Reserved?
      && v' == Moved(Endpointed(v, u, Raised(EndpointOf(v, u))), u, Pending)
    case Fail(u) =>
      && UpgradeAt(v, u) && v.upgrades[u].pc.Pending?
      && v' == Moved(Endpointed(v, u, Lowered(EndpointOf(v, u))), u, Failing)
    case ReleaseFailed(u) =>
      && UpgradeAt(v, u) && v.upgrades[u].pc.Failing?
      && v' == Moved(v, u, Failed).(connections := v.connections - 1)
    case Start(u) =>
      && UpgradeAt(v, u) && v.upgrades[u].pc.Pending?
      && v' == Moved(v, u, Started(|v.sessions|)).(sessions := v.sessions + [SessionState(true, false, false)])
    case Register(u) =>
      && UpgradeAt(v, u) && v.upgrades[u].pc.Started?
      && var s := v.upgrades[u].pc.session;
         v' == Moved(Endpointed(v, u, Inserted(EndpointOf(v, u), s)), u, Registered(s))
    case DropGuard(u) =>
      && UpgradeAt(v, u) && v.upgrades[u].pc.Registered?
      && v' == Moved(Endpointed(v, u, Lowered(EndpointOf(v, u))), u, Serving(v.upgrades[u].pc.session))
    case Remove(u) =>
      && UpgradeAt(v, u) && v.upgrades[u].pc.Serving?
      && var s := v.upgrades[u].pc.session;
         && s < |v.sessions| && v.sessions[s].closed
         && v' == Moved(Endpointed(v, u, Without(EndpointOf(v, u), s)), u, Removed(s))
    case _ => false
  }

  predicate SessionStep(v: Server, e: Event, v': Server) {
    match e
    case Shut(s) => s < |v.sessions| && v' == v.(sessions := v.sessions[s := v.sessions[s].(open := false)])
    case Publish(s) =>
      s < |v.sessions| && !v.sessions[s].open && v' == v.(sessions := v.sessions[s := v.sessions[s].(closed := true)])
    case ReleaseSession(s) =>
      && s < |v.sessions| && v.sessions[s].closed && !v.sessions[s].released
      && v' == v.(sessions := v.sessions[s := v.sessions[s].(released := true)], connections := v.connections - 1)
    case _ => false
  }

  predicate CloserAt(v: Server, c: nat) {
    c < |v.closers| && v.closers[c].endpoints <= |v.endpoints|
  }

  function Advanced(v: Server, c: nat, phase: Phase): Server
    requires c < |v.closers|
  {
    v.(closers := v.closers[c := v.closers[c].(phase := phase)])
  }

  predicate CloserStep(v: Server, e: Event, v': Server) {
    match e
    case CallClose =>
      var accepted := set u | 0 <= u < |v.upgrades| && Accepted(v.upgrades[u].pc);
      v' == v.(closers := v.closers + [Closer(|v.endpoints|, accepted, {}, Waiting(0))])
    case SeeZero(c) =>
      && CloserAt(v, c) && v.closers[c].phase.Waiting? && v.closers[c].phase.next < v.closers[c].endpoints
      && v.endpoints[v.closers[c].phase.next].pending == 0
      && v' == Advanced(v, c, Waiting(v.closers[c].phase.next + 1))
    case BeginCollect(c) =>
      && CloserAt(v, c) && v.closers[c].phase == Waiting(v.closers[c].endpoints)
      && v' == Advanced(v, c, Collecting(0))
    case Collect(c) =>
      && CloserAt(v, c) && v.closers[c].phase.Collecting? && v.closers[c].phase.next < v.closers[c].endpoints
      && var n := v.closers[c].phase.next;
         v' == v.(closers := v.closers[c := v.closers[c].(collected := v.closers[c].collected + v.endpoints[n].sessions,
                                                          phase := Collecting(n + 1))])
    case BeginClose(c) =>
      && CloserAt(v, c) && v.closers[c].phase == Collecting(v.closers[c].endpoints)
      && v' == Advanced(v, c, Closing(v.closers[c].collected))
    case CloseOne(c, s) =>
      && CloserAt(v, c) && v.closers[c].phase.Closing? && s in v.closers[c].phase.todo && s < |v.sessions|
      && v' == Advanced(v, c, Closing(v.closers[c].phase.todo - {s}))
               .(sessions := v.sessions[s := v.sessions[s].(open := false)])
    case BeginAwait(c) =>
      && CloserAt(v, c) && v.closers[c].phase == Closing({})
      && v' == Advanced(v, c, Awaiting(v.closers[c].collected))
    case SawClosed(c, s) =>
      && CloserAt(v, c) && v.closers[c].phase.Awaiting? && s in v.closers[c].phase.todo
      && s < |v.sessions| && v.sessions[s].closed
      && v' == Advanced(v, c, Awaiting(v.closers[c].phase.todo - {s}))
    case Return(c) =>
      CloserAt(v, c) && v.closers[c].phase == Awaiting({}) && v' == Advanced(v, c, Returned)
    case _ => false
  }

  predicate Step(v: Server, e: Event, v': Server) {
    UpgradeStep(v, e, v') || SessionStep(v, e, v') || CloserStep(v, e, v')
  }

  ghost predicate StepAt(run: seq<Server>, events: seq<Event>, k: nat)
    requires k < |events| && |run| == |events| + 1
  {
    Step(run[k], events[k], run[k + 1])
  }

  ghost predicate Run(run: seq<Server>, events: seq<Event>) {
    && |run| == |events| + 1
    && run[0] == Server([], [], [], 0, [])
    && forall k :: 0 <= k < |events| ==> StepAt(run, events, k)
  }

  // ----- counts

  function One(b: bool): nat {
    if b then 1 else 0
  }

  /** Live guards of an endpoint. */
  function Guards(us: seq<Upgrade>, endpoint: nat): nat {
    if us == [] then 0
    else Guards(us[..|us| - 1], endpoint) + One(us[|us| - 1].endpoint == endpoint && Guarded(us[|us| - 1].pc))
  }

  /** Connection permits in the hands of upgrade tasks. */
  function Permits(us: seq<Upgrade>): nat {
    if us == [] then 0 else Permits(us[..|us| - 1]) + One(OwnsPermit(us[|us| - 1].pc))
  }

  /** Connection permits in the hands of sessions. */
  function Alive(ss: seq<SessionState>): nat {
    if ss == [] then 0 else Alive(ss[..|ss| - 1]) + One(!ss[|ss| - 1].released)
  }

  lemma {:induction false} GuardsUpdate(us: seq<Upgrade>, u: nat, x: Upgrade, endpoint: nat)
    requires u < |us|
    ensures Guards(us[u := x], endpoint) + One(us[u].endpoint == endpoint && Guarded(us[u].pc))
            == Guards(us, endpoint) + One(x.endpoint == endpoint && Guarded(x.pc))
    decreases |us|
  {
    var n := |us| - 1;
    if u == n {
      assert us[u := x][..n] == us[..n];
    } else {
      GuardsUpdate(us[..n], u, x, endpoint);
      assert us[u := x][..n] == us[..n][u := x];
    }
  }

  lemma {:induction false} PermitsUpdate(us: seq<Upgrade>, u: nat, x: Upgrade)
    requires u < |us|
    ensures Permits(us[u := x]) + One(OwnsPermit(us[u].pc)) == Permits(us) + One(OwnsPermit(x.pc))
    decreases |us|
  {
    var n := |us| - 1;
    if u == n {
      assert us[u := x][..n] == us[..n];
    } else {
      PermitsUpdate(us[..n], u, x);
      assert us[u := x][..n] == us[..n][u := x];
    }
  }

  lemma {:induction false} AliveUpdate(ss: seq<SessionState>, s: nat, x: SessionState)
    requires s < |ss|
    ensures Alive(ss[s := x]) + One(!ss[s].released) == Alive(ss) + One(!x.released)
    decreases |ss|
  {
    var n := |ss| - 1;
    if s == n {
      assert ss[s := x][..n] == ss[..n];
    } else {
      AliveUpdate(ss[..n], s, x);
      assert ss[s := x][..n] == ss[..n][s := x];
    }
  }

  lemma {:induction false} GuardsAppend(us: seq<Upgrade>, x: Upgrade, endpoint: nat)
    ensures Guards(us + [x], endpoint) == Guards(us, endpoint) + One(x.endpoint == endpoint && Guarded(x.pc))
    ensures Permits(us + [x]) == Permits(us) + One(OwnsPermit(x.pc))
  {
    assert (us + [x])[..|us|] == us;
  }

  lemma {:induction false} AliveAppend(ss: seq<SessionState>, x: SessionState)
    ensures Alive(ss + [x]) == Alive(ss) + One(!x.released)
  {
    assert (ss + [x])[..|ss|] == ss;
  }

  lemma {:induction false} NoGuards(us: seq<Upgrade>, endpoint: nat, u: nat)
    requires Guards(us, endpoint) == 0 && u < |us| && us[u].endpoint == endpoint
    ensures !Guarded(us[u].pc)
  {
    if u < |us| - 1 {
      NoGuards(us[..|us| - 1], endpoint, u);
    }
  }

  lemma {:induction false} GuardsElsewhere(us: seq<Upgrade>, endpoint: nat)
    requires forall u :: 0 <= u < |us| ==> us[u].endpoint != endpoint
    ensures Guards(us, endpoint) == 0
  {
    if us != [] {
      GuardsElsewhere(us[..|us| - 1], endpoint);
    }
  }

  // ----- what every step keeps

  /** `pending_upgrades` counts the live guards, and the connections counted are the permits that guards
      and sessions own. */
  ghost predicate Counted(v: Server) {
    && (forall j :: 0 <= j < |v.endpoints| ==> v.endpoints[j].pending == Guards(v.upgrades, j))
    && v.connections == Permits(v.upgrades) + Alive(v.sessions)
  }

  /** An upgrade's session is registered from before the guard is dropped until it is closed. */
  predicate Placed(v: Server, u: nat)
    requires u < |v.upgrades|
  {
    && v.upgrades[u].endpoint < |v.endpoints|
    && var pc := v.upgrades[u].pc;
       HasSession(pc) ==>
         && pc.session < |v.sessions|
         && (pc.Registered? || pc.Serving? ==> pc.session in v.endpoints[v.upgrades[u].endpoint].sessions)
         && (pc.Removed? ==> v.sessions[pc.session].closed)
  }

  ghost predicate AllPlaced(v: Server) {
    && (forall u :: 0 <= u < |v.upgrades| ==> Placed(v, u))
    && (forall t, u :: 0 <= t < u < |v.upgrades| && HasSession(v.upgrades[t].pc) && HasSession(v.upgrades[u].pc)
                       ==> v.upgrades[t].pc.session != v.upgrades[u].pc.session)
    && (forall j, s :: 0 <= j < |v.endpoints| && s in v.endpoints[j].sessions ==> s < |v.sessions|)
  }

  /** One upgrade moves on, and its endpoint's count and the permits move with it. */
  lemma {:induction false} MoveCounts(v: Server, u: nat, v': Server)
    requires Counted(v) && UpgradeAt(v, u) && |v'.endpoints| == |v.endpoints| && u < |v'.upgrades|
    requires v'.upgrades == Moved(v, u, v'.upgrades[u].pc).upgrades
    requires var pc, pc' := v.upgrades[u].pc, v'.upgrades[u].pc;
             && v'.endpoints[v.upgrades[u].endpoint].pending
                == v.endpoints[v.upgrades[u].endpoint].pending + One(Guarded(pc')) - One(Guarded(pc))
             && v'.connections - Alive(v'.sessions)
                == v.connections - Alive(v.sessions) + One(OwnsPermit(pc')) - One(OwnsPermit(pc))
    requires forall i :: 0 <= i < |v.endpoints| && i != v.upgrades[u].endpoint
                         ==> v'.endpoints[i].pending == v.endpoints[i].pending
    ensures Counted(v')
  {
    hide Guarded, OwnsPermit, Guards, Permits, Alive;
    forall i | 0 <= i < |v'.endpoints| ensures v'.endpoints[i].pending == Guards(v'.upgrades, i) {
      GuardsUpdate(v.upgrades, u, v'.upgrades[u], i);
    }
    PermitsUpdate(v.upgrades, u, v'.upgrades[u]);
  }

  lemma {:induction false} ReserveCounts(v: Server, endpoint: nat, v': Server)
    requires Counted(v) && UpgradeStep(v, Reserve(endpoint), v')
    ensures Counted(v')
  {
    hide Guards, Permits, Alive;
    forall j | 0 <= j < |v.endpoints| ensures Guards(v'.upgrades, j) == Guards(v.upgrades, j) {
      GuardsAppend(v.upgrades, Upgrade(endpoint, Reserved), j);
    }
    GuardsAppend(v.upgrades, Upgrade(endpoint, Reserved), 0);
  }

  lemma {:induction false} AddCounts(v: Server, v': Server)
    requires Counted(v) && AllPlaced(v) && UpgradeStep(v, AddEndpoint, v')
    ensures Counted(v')
  {
    hide Guards, Permits, Alive, Placed;
    forall u | 0 <= u < |v.upgrades| ensures v.upgrades[u].endpoint != |v.endpoints| {
      PlacedEndpoint(v, u);
    }
    GuardsElsewhere(v.upgrades, |v.endpoints|);
  }

  lemma {:induction false} UpgradeCounts(v: Server, e: Event, v': Server)
    requires Counted(v) && AllPlaced(v) && UpgradeStep(v, e, v')
    ensures Counted(v')
  {
    hide Guards, Permits, Alive, AllPlaced, Counted;
    if e.AddEndpoint? {
      AddCounts(v, v');
    } else if e.Reserve? {
      ReserveCounts(v, e.endpoint, v');
    } else {
      if e.Start? {
        AliveAppend(v.sessions, SessionState(true, false, false));
      }
      MoveCounts(v, e.u, v');
    }
  }

  lemma {:induction false} PlacedEndpoint(v: Server, u: nat)
    requires u < |v.upgrades| && Placed(v, u)
    ensures v.upgrades[u].endpoint < |v.endpoints|
  {
  }

  lemma {:induction false} SessionCounts(v: Server, e: Event, v': Server)
    requires Counted(v) && (SessionStep(v, e, v') || CloserStep(v, e, v'))
    ensures Counted(v')
  {
    hide Guards, Permits, Alive;
    if SessionStep(v, e, v') || e.CloseOne? {
      AliveUpdate(v.sessions, e.s, v'.sessions[e.s]);
    }
  }

  /** The new session is one that no other upgrade has. */
  lemma {:induction false} StartPlaces(v: Server, u: nat, v': Server)
    requires AllPlaced(v) && UpgradeStep(v, Start(u), v')
    ensures AllPlaced(v')
  {
    forall t | 0 <= t < |v'.upgrades|
      ensures Placed(v', t) && (t != u && HasSession(v'.upgrades[t].pc) ==> v'.upgrades[t].pc.session < |v.sessions|)
    {
      assert Placed(v, t);
    }
  }

  /** Removing one session leaves those of the other upgrades registered. */
  lemma {:induction false} RemovePlaces(v: Server, u: nat, v': Server)
    requires AllPlaced(v) && UpgradeStep(v, Remove(u), v')
    ensures AllPlaced(v')
  {
    forall t | 0 <= t < |v'.upgrades| ensures Placed(v', t) {
      assert Placed(v, t);
      if t < u && HasSession(v.upgrades[t].pc) {
        assert v.upgrades[t].pc.session != v.upgrades[u].pc.session;
      } else if u < t && HasSession(v.upgrades[t].pc) {
        assert v.upgrades[u].pc.session != v.upgrades[t].pc.session;
      }
    }
  }

  lemma {:induction false} RegisterPlaces(v: Server, u: nat, v': Server)
    requires AllPlaced(v) && UpgradeStep(v, Register(u), v')
    ensures AllPlaced(v')
  {
    assert Placed(v, u);
    forall t | 0 <= t < |v'.upgrades| ensures Placed(v', t) {
      assert Placed(v, t);
    }
  }

  /** The steps that neither create, register nor remove a session. */
  lemma {:induction false} OtherPlaces(v: Server, e: Event, v': Server)
    requires AllPlaced(v) && UpgradeStep(v, e, v') && !e.Start? && !e.Register? && !e.Remove?
    ensures AllPlaced(v')
  {
    forall u | 0 <= u < |v'.upgrades| ensures Placed(v', u) {
      if u < |v.upgrades| {
        assert Placed(v, u);
      }
    }
    forall j, s | 0 <= j < |v'.endpoints| && s in v'.endpoints[j].sessions ensures s < |v'.sessions| {
      assert j < |v.endpoints| ==> s in v.endpoints[j].sessions;
    }
  }

  lemma {:induction false} UpgradePlaces(v: Server, e: Event, v': Server)
    requires AllPlaced(v) && UpgradeStep(v, e, v')
    ensures AllPlaced(v')
  {
    hide AllPlaced, UpgradeStep;
    if e.Start? {
      StartPlaces(v, e.u, v');
    } else if e.Register? {
      RegisterPlaces(v, e.u, v');
    } else if e.Remove? {
      RemovePlaces(v, e.u, v');
    } else {
      OtherPlaces(v, e, v');
    }
  }

  lemma {:induction false} SessionPlaces(v: Server, e: Event, v': Server)
    requires AllPlaced(v) && (SessionStep(v, e, v') || CloserStep(v, e, v'))
    ensures AllPlaced(v')
  {
    forall u | 0 <= u < |v'.upgrades| ensures Placed(v', u) {
      assert Placed(v, u);
    }
  }

  // ----- the calls of close_sessions

  /** The upgrade has failed, or its session is among those collected or is closed already. */
  predicate Covered(v: Server, u: nat, collected: set<nat>) {
    && u < |v.upgrades|
    && var pc := v.upgrades[u].pc;
       Over(pc) || (HasSession(pc) && pc.session < |v.sessions|
                    && (pc.session in collected || v.sessions[pc.session].closed))
  }

  predicate Passed(v: Server, u: nat) {
    u < |v.upgrades| && Accepted(v.upgrades[u].pc) && !Guarded(v.upgrades[u].pc)
  }

  ghost predicate CloserInv(v: Server, c: Closer) {
    && c.endpoints <= |v.endpoints|
    && (forall u :: u in c.accepted ==>
          u < |v.upgrades| && Accepted(v.upgrades[u].pc) && v.upgrades[u].endpoint < c.endpoints)
    && (forall s :: s in c.collected ==> s < |v.sessions|)
    && (match c.phase
        case Waiting(n) =>
          n <= c.endpoints && forall u :: u in c.accepted && v.upgrades[u].endpoint < n ==> Passed(v, u)
        case Collecting(n) =>
          && n <= c.endpoints
          && (forall u :: u in c.accepted ==> Passed(v, u))
          && (forall u :: u in c.accepted && v.upgrades[u].endpoint < n ==> Covered(v, u, c.collected))
        case Closing(todo) =>
          && (forall u :: u in c.accepted ==> Covered(v, u, c.collected))
          && todo <= c.collected && (forall s :: s in c.collected - todo ==> !v.sessions[s].open)
        case Awaiting(todo) =>
          && (forall u :: u in c.accepted ==> Covered(v, u, c.collected))
          && todo <= c.collected && (forall s :: s in c.collected ==> !v.sessions[s].open)
          && (forall s :: s in c.collected ==> s in todo || v.sessions[s].closed)
        case Returned =>
          && (forall u :: u in c.accepted ==> Covered(v, u, c.collected))
          && (forall s :: s in c.collected ==> v.sessions[s].closed))
  }

  /** How upgrades and sessions change in any step. */
  ghost predicate Progress(v: Server, v': Server) {
    && |v.endpoints| <= |v'.endpoints| && |v.upgrades| <= |v'.upgrades| && |v.sessions| <= |v'.sessions|
    && (forall u :: 0 <= u < |v.upgrades| ==>
          var x, y := v.upgrades[u], v'.upgrades[u];
          && y.endpoint == x.endpoint
          && (Accepted(x.pc) ==> Accepted(y.pc))
          && (Over(x.pc) ==> Over(y.pc))
          && (HasSession(x.pc) ==> HasSession(y.pc) && y.pc.session == x.pc.session)
          && (Accepted(x.pc) && !Guarded(x.pc) ==> !Guarded(y.pc)))
    && (forall s :: 0 <= s < |v.sessions| && v.sessions[s].closed ==> v'.sessions[s].closed)
    && (forall s :: 0 <= s < |v.sessions| && !v.sessions[s].open ==> !v'.sessions[s].open)
  }

  lemma {:induction false} UpgradeProgress(v: Server, e: Event, v': Server)
    requires UpgradeStep(v, e, v')
    ensures Progress(v, v') && v'.closers == v.closers
  {
  }

  lemma {:induction false} SessionProgress(v: Server, e: Event, v': Server)
    requires SessionStep(v, e, v') || CloserStep(v, e, v')
    ensures Progress(v, v')
  {
  }

  lemma {:induction false} CloserKept(v: Server, v': Server, c: Closer)
    requires Progress(v, v') && CloserInv(v, c)
    ensures CloserInv(v', c)
  {
  }

  /** Once an endpoint's count is seen at zero, its accepted upgrades have all passed the guard. */
  lemma {:induction false} ZeroPasses(v: Server, c: Closer)
    requires CloserInv(v, c) && Counted(v) && c.phase.Waiting? && c.phase.next < c.endpoints
    requires v.endpoints[c.phase.next].pending == 0
    ensures CloserInv(v, c.(phase := Waiting(c.phase.next + 1)))
  {
    hide Guards;
    forall u | u in c.accepted && v.upgrades[u].endpoint < c.phase.next + 1 ensures Passed(v, u) {
      if v.upgrades[u].endpoint == c.phase.next {
        NoGuards(v.upgrades, c.phase.next, u);
      }
    }
  }

  /** Collecting an endpoint's sessions covers those upgrades: their sessions are registered still, or were
      removed after closing. */
  lemma {:induction false} CollectCovers(v: Server, c: Closer)
    requires CloserInv(v, c) && AllPlaced(v) && c.phase.Collecting? && c.phase.next < c.endpoints
    ensures CloserInv(v, c.(collected := c.collected + v.endpoints[c.phase.next].sessions,
                            phase := Collecting(c.phase.next + 1)))
  {
    var collected := c.collected + v.endpoints[c.phase.next].sessions;
    forall u | u in c.accepted && v.upgrades[u].endpoint < c.phase.next + 1 ensures Covered(v, u, collected) {
      assert Placed(v, u) && Passed(v, u);
      if v.upgrades[u].endpoint < c.phase.next {
        assert Covered(v, u, c.collected);
      }
    }
  }

  lemma {:induction false} CloserAdvances(v: Server, e: Event, v': Server, i: nat)
    requires Counted(v) && AllPlaced(v) && CloserStep(v, e, v') && i < |v'.closers|
    requires i < |v.closers| ==> CloserInv(v, v.closers[i])
    ensures CloserInv(v', v'.closers[i])
  {
    hide CloserInv, Counted, AllPlaced, Progress;
    SessionProgress(v, e, v');
    if i < |v.closers| && v'.closers[i] == v.closers[i] {
      CloserKept(v, v', v.closers[i]);
    } else {
      if e.CallClose? {
        NewCloser(v);
        CloserKept(v, v', v'.closers[i]);
      } else if e.SeeZero? {
        ZeroPasses(v, v.closers[i]);
        CloserKept(v, v', v'.closers[i]);
      } else if e.Collect? {
        CollectCovers(v, v.closers[i]);
        CloserKept(v, v', v'.closers[i]);
      } else {
        OtherAdvance(v, e, v', i);
      }
    }
  }

  lemma {:induction false} NewCloser(v: Server)
    requires AllPlaced(v)
    ensures var accepted := set u | 0 <= u < |v.upgrades| && Accepted(v.upgrades[u].pc);
            CloserInv(v, Closer(|v.endpoints|, accepted, {}, Waiting(0)))
  {
    forall u | 0 <= u < |v.upgrades| ensures v.upgrades[u].endpoint < |v.endpoints| {
      assert Placed(v, u);
    }
  }

  lemma {:induction false} OtherAdvance(v: Server, e: Event, v': Server, i: nat)
    requires CloserStep(v, e, v') && i < |v.closers| == |v'.closers| && v'.closers[i] != v.closers[i]
    requires CloserInv(v, v.closers[i]) && !e.CallClose? && !e.SeeZero? && !e.Collect? && Progress(v, v')
    ensures CloserInv(v', v'.closers[i])
  {
  }

  ghost predicate ServerInv(v: Server) {
    && Counted(v) && AllPlaced(v)
    && forall i :: 0 <= i < |v.closers| ==> CloserInv(v, v.closers[i])
  }

  lemma {:induction false} StepKeeps(v: Server, e: Event, v': Server)
    requires ServerInv(v) && Step(v, e, v')
    ensures ServerInv(v')
  {
    hide UpgradeStep, SessionStep, CloserStep, Counted, AllPlaced, CloserInv, Progress;
    if UpgradeStep(v, e, v') {
      UpgradeCounts(v, e, v');
      UpgradePlaces(v, e, v');
      UpgradeProgress(v, e, v');
      forall i | 0 <= i < |v'.closers| ensures CloserInv(v', v'.closers[i]) {
        CloserKept(v, v', v.closers[i]);
      }
    } else {
      SessionCounts(v, e, v');
      SessionPlaces(v, e, v');
      SessionProgress(v, e, v');
      forall i | 0 <= i < |v'.closers| ensures CloserInv(v', v'.closers[i]) {
        if CloserStep(v, e, v') {
          CloserAdvances(v, e, v', i);
        } else {
          SessionKeepsClosers(v, e, v');
          CloserKept(v, v', v.closers[i]);
        }
      }
    }
  }

  lemma {:induction false} SessionKeepsClosers(v: Server, e: Event, v': Server)
    requires SessionStep(v, e, v')
    ensures v'.closers == v.closers
  {
  }

  lemma {:induction false} RunKeeps(run: seq<Server>, events: seq<Event>, k: nat)
    requires Run(run, events) && k < |run|
    ensures ServerInv(run[k])
  {
    hide Step;
    if k > 0 {
      RunKeeps(run, events, k - 1);
      assert StepAt(run, events, k - 1);
      StepKeeps(run[k - 1], events[k - 1], run[k]);
    }
  }

  /** In every run: `pending_upgrades` is the number of live guards, and the connections counted are the
      permits owned, each by one upgrade task or by one session. */
  lemma {:induction false} PermitsHaveOneOwner(run: seq<Server>, events: seq<Event>, k: nat)
    requires Run(run, events) && k < |run|
    ensures forall j :: 0 <= j < |run[k].endpoints| ==> run[k].endpoints[j].pending == Guards(run[k].upgrades, j)
    ensures run[k].connections == Permits(run[k].upgrades) + Alive(run[k].sessions)
    ensures var us := run[k].upgrades;
            && (forall u :: 0 <= u < |us| ==> !(OwnsPermit(us[u].pc) && HasSession(us[u].pc)))
            && (forall t, u :: 0 <= t < u < |us| && HasSession(us[t].pc) && HasSession(us[u].pc)
                               ==> us[t].pc.session != us[u].pc.session)
  {
    hide Run;
    RunKeeps(run, events, k);
  }

  /** When `close_sessions` has returned, every upgrade accepted before the call has failed or its session
      is closed, whichever way registration, the wait and other calls interleave. */
  lemma {:induction false} NoUpgradeSlipsPast(run: seq<Server>, events: seq<Event>, j: nat, k: nat, c: nat, u: nat)
    requires Run(run, events) && j <= k < |events| && events[j].CallClose? && c == |run[j].closers|
    requires c < |run[k + 1].closers| && run[k + 1].closers[c].phase.Returned?
    requires u < |run[j].upgrades| && Accepted(run[j].upgrades[u].pc)
    ensures u < |run[k + 1].upgrades|
    ensures var pc := run[k + 1].upgrades[u].pc;
            Over(pc) || (HasSession(pc) && pc.session < |run[k + 1].sessions| && run[k + 1].sessions[pc.session].closed)
  {
    hide Step, ServerInv;
    RunKeeps(run, events, k + 1);
    ReturnedCovers(run[k + 1], c);
    SnapshotKept(run, events, j, k, c, u);
    assert Covered(run[k + 1], u, run[k + 1].closers[c].collected);
  }

  lemma {:induction false} ReturnedCovers(v: Server, c: nat)
    requires ServerInv(v) && c < |v.closers| && v.closers[c].phase.Returned?
    ensures forall u :: u in v.closers[c].accepted ==> Covered(v, u, v.closers[c].collected)
    ensures forall s :: s in v.closers[c].collected ==> s < |v.sessions| && v.sessions[s].closed
  {
    assert CloserInv(v, v.closers[c]);
  }

  lemma {:induction false} SnapshotKept(run: seq<Server>, events: seq<Event>, j: nat, k: nat, c: nat, u: nat)
    requires Run(run, events) && j <= k < |events| && events[j].CallClose? && c == |run[j].closers|
    requires u < |run[j].upgrades| && Accepted(run[j].upgrades[u].pc)
    ensures c < |run[k + 1].closers| && u in run[k + 1].closers[c].accepted
  {
    hide Step;
    assert StepAt(run, events, k);
    if j < k {
      SnapshotKept(run, events, j, k - 1, c, u);
      AcceptedKept(run[k], events[k], run[k + 1], c);
    } else {
      SnapshotTaken(run[k], run[k + 1], u);
    }
  }

  lemma {:induction false} AcceptedKept(v: Server, e: Event, v': Server, c: nat)
    requires Step(v, e, v') && c < |v.closers|
    ensures c < |v'.closers| && v'.closers[c].accepted == v.closers[c].accepted
  {
  }

  lemma {:induction false} SnapshotTaken(v: Server, v': Server, u: nat)
    requires Step(v, CallClose, v') && u < |v.upgrades| && Accepted(v.upgrades[u].pc)
    ensures |v.closers| < |v'.closers| && u in v'.closers[|v.closers|].accepted
  {
  }

  /** An accepted upgrade gets to serving its session: it is open, registered at its endpoint, and owns the
      connection permit, and the guard is gone. */
  lemma {:induction false} UpgradeServes(v: Server, u: nat) returns (v1: Server, v2: Server, v3: Server)
    requires UpgradeAt(v, u) && v.upgrades[u].pc.Pending?
    ensures Step(v, Start(u), v1) && Step(v1, Register(u), v2) && Step(v2, DropGuard(u), v3)
    ensures var s, e := |v.sessions|, v.upgrades[u].endpoint;
            && v3.upgrades == v.upgrades[u := v.upgrades[u].(pc := Serving(s))]
            && v3.sessions == v.sessions + [SessionState(true, false, false)] && v3.connections == v.connections
            && e < |v3.endpoints| && v3.endpoints[e].sessions == v.endpoints[e].sessions + {s}
            && v3.endpoints[e].pending == v.endpoints[e].pending - 1
  {
    hide SessionStep, CloserStep;
    var s := |v.sessions|;
    v1 := Moved(v, u, Started(s)).(sessions := v.sessions + [SessionState(true, false, false)]);
    v2 := Moved(Endpointed(v1, u, Inserted(EndpointOf(v1, u), s)), u, Registered(s));
    v3 := Moved(Endpointed(v2, u, Lowered(EndpointOf(v2, u))), u, Serving(s));
  }

  // ----- close_sessions does return

  /** Steps of the call `c` itself, of upgrades that have been accepted, and of sessions that have been told to
      close; none of them needs a peer, a new request or another call. */
  predicate CloseWork(e: Event, c: nat) {
    || e in {SeeZero(c), BeginCollect(c), Collect(c), BeginClose(c), BeginAwait(c), Return(c)}
    || (e.CloseOne? && e.c == c) || (e.SawClosed? && e.c == c)
    || e.Fail? || e.Register? || e.DropGuard? || e.Publish?
  }

  /** How far an upgrade is from dropping its guard, at most. */
  function GuardWork(us: seq<Upgrade>): nat {
    if us == [] then 0 else GuardWork(us[..|us| - 1]) + Ahead(us[|us| - 1].pc)
  }

  function Ahead(pc: Pc): nat {
    match pc
    case Pending => 3
    case Started(_) => 2
    case Registered(_) => 1
    case _ => 0
  }

  lemma {:induction false} WorkUpdate(us: seq<Upgrade>, u: nat, x: Upgrade)
    requires u < |us|
    ensures GuardWork(us[u := x]) + Ahead(us[u].pc) == GuardWork(us) + Ahead(x.pc)
    decreases |us|
  {
    var n := |us| - 1;
    if u == n {
      assert us[u := x][..n] == us[..n];
    } else {
      WorkUpdate(us[..n], u, x);
      assert us[u := x][..n] == us[..n][u := x];
    }
  }

  lemma {:induction false} FindGuard(us: seq<Upgrade>, endpoint: nat) returns (u: nat)
    requires Guards(us, endpoint) > 0
    ensures u < |us| && us[u].endpoint == endpoint && Guarded(us[u].pc)
  {
    var n := |us| - 1;
    if us[n].endpoint == endpoint && Guarded(us[n].pc) {
      u := n;
    } else {
      u := FindGuard(us[..n], endpoint);
    }
  }

  function Stage(phase: Phase): nat {
    match phase
    case Waiting(_) => 4
    case Collecting(_) => 3
    case Closing(_) => 2
    case Awaiting(_) => 1
    case Returned => 0
  }

  function ToGo(c: Closer): nat {
    match c.phase
    case Waiting(n) => if n < c.endpoints then c.endpoints - n else 0
    case Collecting(n) => if n < c.endpoints then c.endpoints - n else 0
    case Closing(todo) => |todo|
    case Awaiting(todo) => |todo|
    case Returned => 0
  }

  /** The sessions a call awaits that have yet to publish that they are closed. */
  function Unpublished(v: Server, c: nat): set<nat>
    requires c < |v.closers|
  {
    set s | 0 <= s < |v.sessions| && s in v.closers[c].collected && !v.sessions[s].closed
  }

  /** What the call still needs, besides its own steps. */
  function Awaited(v: Server, c: nat): nat
    requires c < |v.closers|
  {
    match v.closers[c].phase
    case Waiting(_) => GuardWork(v.upgrades)
    case Awaiting(_) => |Unpublished(v, c)|
    case _ => 0
  }

  /** The call gets further from `v` to `v'`. */
  ghost predicate Further(v: Server, e: Event, v': Server, c: nat) {
    && c < |v.closers| && |v'.closers| == |v.closers| && Step(v, e, v') && CloseWork(e, c)
    && var x, y := v.closers[c], v'.closers[c];
       || Stage(y.phase) < Stage(x.phase)
       || (Stage(y.phase) == Stage(x.phase) && ToGo(y) < ToGo(x))
       || (Stage(y.phase) == Stage(x.phase) && ToGo(y) == ToGo(x) && Awaited(v', c) < Awaited(v, c))
  }

  /** A guarded upgrade at the endpoint waited for goes on. */
  lemma {:induction false} GuardGoesOn(v: Server, c: nat, u: nat) returns (e: Event, v': Server)
    requires AllPlaced(v) && c < |v.closers| && v.closers[c].phase.Waiting?
    requires u < |v.upgrades| && Guarded(v.upgrades[u].pc)
    ensures Further(v, e, v', c)
  {
    hide CloserStep, SessionStep;
    assert Placed(v, u);
    match v.upgrades[u].pc {
      case Pending => e, v' := Fail(u), Moved(Endpointed(v, u, Lowered(EndpointOf(v, u))), u, Failing);
      case Started(s) =>
        e, v' := Register(u), Moved(Endpointed(v, u, Inserted(EndpointOf(v, u), s)), u, Registered(s));
      case Registered(s) => e, v' := DropGuard(u), Moved(Endpointed(v, u, Lowered(EndpointOf(v, u))), u, Serving(s));
    }
    assert UpgradeStep(v, e, v');
    WorkUpdate(v.upgrades, u, v'.upgrades[u]);
  }

  lemma {:induction false} CallCollects(v: Server, c: nat) returns (e: Event, v': Server)
    requires c < |v.closers| && CloserInv(v, v.closers[c])
    requires v.closers[c].phase.Collecting?
             || (v.closers[c].phase.Waiting?
                 && (v.closers[c].phase.next < v.closers[c].endpoints ==>
                       v.endpoints[v.closers[c].phase.next].pending == 0))
    ensures Further(v, e, v', c)
  {
    hide UpgradeStep, SessionStep, GuardWork;
    var x := v.closers[c];
    match x.phase {
      case Waiting(n) =>
        if n < x.endpoints {
          e, v' := SeeZero(c), Advanced(v, c, Waiting(n + 1));
        } else {
          e, v' := BeginCollect(c), Advanced(v, c, Collecting(0));
        }
      case Collecting(n) =>
        if n < x.endpoints {
          var collected := x.collected + v.endpoints[n].sessions;
          e, v' := Collect(c), v.(closers := v.closers[c := x.(collected := collected, phase := Collecting(n + 1))]);
        } else {
          e, v' := BeginClose(c), Advanced(v, c, Closing(x.collected));
        }
    }
    assert CloserStep(v, e, v');
  }

  lemma {:induction false} OneCloses(v: Server, c: nat, s: nat) returns (v': Server)
    requires c < |v.closers| && CloserInv(v, v.closers[c])
    requires v.closers[c].phase.Closing? && s in v.closers[c].phase.todo
    ensures Further(v, CloseOne(c, s), v', c)
  {
    hide UpgradeStep, SessionStep;
    var todo := v.closers[c].phase.todo;
    v' := Advanced(v, c, Closing(todo - {s})).(sessions := v.sessions[s := v.sessions[s].(open := false)]);
    assert CloserStep(v, CloseOne(c, s), v');
  }

  /** A session awaited was told to close, so it can publish that it is closed; then it is seen. */
  lemma {:induction false} OneIsAwaited(v: Server, c: nat, s: nat) returns (e: Event, v': Server)
    requires c < |v.closers| && CloserInv(v, v.closers[c])
    requires v.closers[c].phase.Awaiting? && s in v.closers[c].phase.todo
    ensures Further(v, e, v', c)
  {
    hide UpgradeStep;
    var todo := v.closers[c].phase.todo;
    if v.sessions[s].closed {
      e, v' := SawClosed(c, s), Advanced(v, c, Awaiting(todo - {s}));
      assert CloserStep(v, e, v');
    } else {
      e, v' := Publish(s), v.(sessions := v.sessions[s := v.sessions[s].(closed := true)]);
      assert SessionStep(v, e, v');
      assert Unpublished(v', c) == Unpublished(v, c) - {s} && s in Unpublished(v, c);
    }
  }

  lemma {:induction false} PhaseEnds(v: Server, c: nat) returns (e: Event, v': Server)
    requires c < |v.closers| && CloserInv(v, v.closers[c])
    requires v.closers[c].phase == Closing({}) || v.closers[c].phase == Awaiting({})
    ensures Further(v, e, v', c)
  {
    hide UpgradeStep, SessionStep;
    if v.closers[c].phase.Closing? {
      e, v' := BeginAwait(c), Advanced(v, c, Awaiting(v.closers[c].collected));
    } else {
      e, v' := Return(c), Advanced(v, c, Returned);
    }
    assert CloserStep(v, e, v');
  }

  lemma {:induction false} CallGoesOn(v: Server, c: nat) returns (e: Event, v': Server)
    requires ServerInv(v) && c < |v.closers| && !v.closers[c].phase.Returned?
    ensures Further(v, e, v', c)
  {
    hide Further, CloserInv, Guards;
    var x := v.closers[c];
    if x.phase.Closing? || x.phase.Awaiting? {
      if x.phase.todo == {} {
        e, v' := PhaseEnds(v, c);
      } else {
        var s :| s in x.phase.todo;
        if x.phase.Closing? {
          e := CloseOne(c, s);
          v' := OneCloses(v, c, s);
        } else {
          e, v' := OneIsAwaited(v, c, s);
        }
      }
    } else {
      EndpointsThere(v, x);
      if x.phase.Waiting? && x.phase.next < x.endpoints && v.endpoints[x.phase.next].pending != 0 {
        var u := FindGuard(v.upgrades, x.phase.next);
        e, v' := GuardGoesOn(v, c, u);
      } else {
        e, v' := CallCollects(v, c);
      }
    }
  }

  lemma {:induction false} EndpointsThere(v: Server, c: Closer)
    requires CloserInv(v, c)
    ensures c.endpoints <= |v.endpoints|
  {
  }

  /** From every point of every call, whatever upgrades and other calls are under way: it returns, by its own
      steps, those of the upgrades that were accepted, and those of the sessions told to close. */
  lemma {:induction false} CallReturns(v: Server, c: nat) returns (run: seq<Server>, events: seq<Event>)
    requires ServerInv(v) && c < |v.closers|
    ensures |run| == |events| + 1 && run[0] == v
    ensures forall k :: 0 <= k < |events| ==> StepAt(run, events, k) && CloseWork(events[k], c)
    ensures c < |run[|events|].closers| && run[|events|].closers[c].phase.Returned?
    decreases Stage(v.closers[c].phase), ToGo(v.closers[c]), Awaited(v, c)
  {
    hide Step, ServerInv, CloseWork, Stage, ToGo, Awaited;
    if v.closers[c].phase.Returned? {
      return [v], [];
    }
    var e, v' := CallGoesOn(v, c);
    StepKeeps(v, e, v');
    var rest, tail := CallReturns(v', c);
    run, events := [v] + rest, [e] + tail;
    forall k | 0 <= k < |events| ensures StepAt(run, events, k) && CloseWork(events[k], c) {
      if k > 0 {
        assert StepAt(rest, tail, k - 1);
      }
    }
  }
}
