/** Admission accounting of `src/resources.rs`: counters that stand for the permits alive. */
module Resources {
  import opened Texts

  datatype Resource = Connection | Request | Data | Control | Handler

  datatype Permit = Permit(resource: Resource, bytes: nat)

  /** The quantities that are limited. */
  datatype Gauge =
    | Connections
    | PendingRequests
    | QueuedMessages | QueuedBytes
    | ControlMessages | ControlBytes
    | HandlerTasks | HandlerBytes

  /** What a live permit contributes. Connections and requests are counted, not weighed. */
  function Weight(p: Permit, g: Gauge): nat {
    match g
    case Connections => if p.resource == Connection then 1 else 0
    case PendingRequests => if p.resource == Request then 1 else 0
    case QueuedMessages => if p.resource == Data then 1 else 0
    case QueuedBytes => if p.resource == Data then p.bytes else 0
    case ControlMessages => if p.resource == Control then 1 else 0
    case ControlBytes => if p.resource == Control then p.bytes else 0
    case HandlerTasks => if p.resource == Handler then 1 else 0
    case HandlerBytes => if p.resource == Handler then p.bytes else 0
  }

  /** One number per gauge; limits and usage both have this shape. */
  datatype Counts = Counts(
    connections: int,
    requests: int,
    queued: int, queuedBytes: int,
    control: int, controlBytes: int,
    tasks: int, taskBytes: int)
  {
    function At(g: Gauge): int {
      match g
      case Connections => connections
      case PendingRequests => requests
      case QueuedMessages => queued
      case QueuedBytes => queuedBytes
      case ControlMessages => control
      case ControlBytes => controlBytes
      case HandlerTasks => tasks
      case HandlerBytes => taskBytes
    }

    function Charge(p: Permit): Counts {
      match p.resource
      case Connection => this.(connections := connections + 1)
      case Request => this.(requests := requests + 1)
      case Data => this.(queued := queued + 1, queuedBytes := queuedBytes + p.bytes)
      case Control => this.(control := control + 1, controlBytes := controlBytes + p.bytes)
      case Handler => this.(tasks := tasks + 1, taskBytes := taskBytes + p.bytes)
    }

    function Refund(p: Permit): Counts {
      match p.resource
      case Connection => this.(connections := connections - 1)
      case Request => this.(requests := requests - 1)
      case Data => this.(queued := queued - 1, queuedBytes := queuedBytes - p.bytes)
      case Control => this.(control := control - 1, controlBytes := controlBytes - p.bytes)
      case Handler => this.(tasks := tasks - 1, taskBytes := taskBytes - p.bytes)
    }
  }

  const NOTHING := Counts(0, 0, 0, 0, 0, 0, 0, 0)

  function SaturatingSub(a: int, b: int): int {
    if a < b then 0 else a - b
  }

  /** The admission test. */
  predicate Admits(limits: Counts, usage: Counts, p: Permit) {
    match p.resource
    case Connection => usage.connections < limits.connections
    case Request => usage.requests < limits.requests
    case Data => usage.queued < limits.queued && p.bytes <= SaturatingSub(limits.queuedBytes, usage.queuedBytes)
    case Control => usage.control < limits.control && p.bytes <= SaturatingSub(limits.controlBytes, usage.controlBytes)
    case Handler => usage.tasks < limits.tasks && p.bytes <= SaturatingSub(limits.taskBytes, usage.taskBytes)
  }

  ghost predicate WithinLimits(usage: Counts, limits: Counts) {
    forall g :: 0 <= usage.At(g) <= limits.At(g)
  }

  /** Within the limits, the saturating test is exactly: there is room for one more. */
  lemma {:induction false} AdmitsExactly(limits: Counts, usage: Counts, p: Permit)
    requires WithinLimits(usage, limits)
    ensures Admits(limits, usage, p) <==> WithinLimits(usage.Charge(p), limits)
  {
    var after := usage.Charge(p);
    var (count, bytes) := match p.resource
                        case Connection => (Connections, Connections)
                        case Request => (PendingRequests, PendingRequests)
                        case Data => (QueuedMessages, QueuedBytes)
                        case Control => (ControlMessages, ControlBytes)
                        case Handler => (HandlerTasks, HandlerBytes);
    assert after.At(count) == usage.At(count) + 1;
    assert after.At(bytes) == usage.At(bytes) + Weight(p, bytes);
    if Admits(limits, usage, p) {
      forall g ensures 0 <= after.At(g) <= limits.At(g) {
        assert 0 <= usage.At(g) <= limits.At(g);
      }
    }
  }

  function Total(ps: seq<Permit>, g: Gauge): nat {
    if ps == [] then 0 else Total(ps[..|ps| - 1], g) + Weight(ps[|ps| - 1], g)
  }

  function Without<T>(xs: seq<T>, k: nat): (ys: seq<T>)
    requires k < |xs|
    ensures |ys| == |xs| - 1
  {
    xs[..k] + xs[k + 1..]
  }

  lemma {:induction false} TotalAppend(ps: seq<Permit>, p: Permit, g: Gauge)
    ensures Total(ps + [p], g) == Total(ps, g) + Weight(p, g)
  {
    assert (ps + [p])[..|ps|] == ps;
  }

  lemma {:induction false} TotalWithout(ps: seq<Permit>, k: nat, g: Gauge)
    requires k < |ps|
    ensures Total(ps, g) == Total(Without(ps, k), g) + Weight(ps[k], g)
    decreases |ps|
  {
    var n := |ps| - 1;
    if k == n {
      assert Without(ps, k) == ps[..n];
    } else {
      TotalWithout(ps[..n], k, g);
      assert Without(ps, k) == Without(ps[..n], k) + [ps[n]];
      TotalAppend(Without(ps[..n], k), ps[n], g);
    }
  }

  lemma {:induction false} ChargeAt(u: Counts, p: Permit, g: Gauge)
    ensures u.Charge(p).At(g) == u.At(g) + Weight(p, g)
    ensures u.Refund(p).At(g) == u.At(g) - Weight(p, g)
  {
  }

  ghost predicate Totals(u: Counts, live: seq<Permit>) {
    forall g :: u.At(g) == Total(live, g)
  }

  lemma {:induction false} ChargedTotals(u: Counts, live: seq<Permit>, p: Permit)
    requires Totals(u, live)
    ensures Totals(u.Charge(p), live + [p])
  {
    hide Counts.At, Counts.Charge, Weight;
    forall g ensures u.Charge(p).At(g) == Total(live + [p], g) {
      ChargeAt(u, p, g);
      TotalAppend(live, p, g);
    }
  }

  /** Giving back a live permit leaves sums of what remains, each at most what it was. */
  lemma {:induction false} RefundedTotals(u: Counts, live: seq<Permit>, k: nat, limits: Counts)
    requires k < |live| && Totals(u, live) && WithinLimits(u, limits)
    ensures Totals(u.Refund(live[k]), Without(live, k)) && WithinLimits(u.Refund(live[k]), limits)
  {
    hide Counts.At, Counts.Refund, Weight;
    forall g ensures u.Refund(live[k]).At(g) == Total(Without(live, k), g) <= u.At(g) {
      ChargeAt(u, live[k], g);
      TotalWithout(live, k, g);
    }
  }

  /** A budget shared by everyone who holds a clone. `live` are the permits not yet dropped. */
  class ResourceBudget {
    const limits: Counts
    var connections: int
    var pendingRequests: int
    var queuedMessages: int
    var queuedBytes: int
    var controlMessages: int
    var controlBytes: int
    var handlerTasks: int
    var handlerBytes: int
    var overloads: nat
    ghost var live: seq<Permit>

    function Snapshot(): Counts
      reads this
    {
      Counts(connections, pendingRequests, queuedMessages, queuedBytes,
             controlMessages, controlBytes, handlerTasks, handlerBytes)
    }

    /** Every counter is the sum over the live permits, within its limit. */
    ghost predicate Valid()
      reads this
    {
      && Totals(Snapshot(), live)
      && WithinLimits(Snapshot(), limits)
      && overloads <= U64_MAX
    }

    constructor (limits: Counts)
      requires WithinLimits(NOTHING, limits)
      ensures Valid() && this.limits == limits && live == [] && overloads == 0
    {
      this.limits := limits;
      connections, pendingRequests := 0, 0;
      queuedMessages, queuedBytes := 0, 0;
      controlMessages, controlBytes := 0, 0;
      handlerTasks, handlerBytes := 0, 0;
      overloads := 0;
      live := [];
    }

    /** Admits exactly when there is room, and a refusal changes nothing but `overloads`. */
    method Reserve(resource: Resource, bytes: nat) returns (permit: Option<Permit>)
      requires Valid()
      modifies this
      ensures Valid()
      ensures permit.Some? <==> WithinLimits(old(Snapshot()).Charge(Permit(resource, bytes)), limits)
      ensures permit.Some? ==> permit.value == Permit(resource, bytes)
      ensures permit.Some? ==> live == old(live) + [permit.value] && overloads == old(overloads)
      ensures permit.Some? ==> Snapshot() == old(Snapshot()).Charge(permit.value)
      ensures permit.None? ==> live == old(live) && Snapshot() == old(Snapshot())
      ensures permit.None? ==> overloads == if old(overloads) == U64_MAX then U64_MAX else old(overloads) + 1
    {
      AdmitsExactly(limits, Snapshot(), Permit(resource, bytes));
      var admitted := false;
      match resource {
        case Connection => admitted := connections < limits.connections;
        case Request => admitted := pendingRequests < limits.requests;
        case Data =>
          admitted := queuedMessages < limits.queued && bytes <= SaturatingSub(limits.queuedBytes, queuedBytes);
        case Control =>
          admitted := controlMessages < limits.control && bytes <= SaturatingSub(limits.controlBytes, controlBytes);
        case Handler =>
          admitted := handlerTasks < limits.tasks && bytes <= SaturatingSub(limits.taskBytes, handlerBytes);
      }
      if !admitted {
        overloads := if overloads == U64_MAX then U64_MAX else overloads + 1;
        return None;
      }
      match resource {
        case Connection => connections := connections + 1;
        case Request => pendingRequests := pendingRequests + 1;
        case Data =>
          queuedMessages := queuedMessages + 1;
          queuedBytes := queuedBytes + bytes;
        case Control =>
          controlMessages := controlMessages + 1;
          controlBytes := controlBytes + bytes;
        case Handler =>
          handlerTasks := handlerTasks + 1;
          handlerBytes := handlerBytes + bytes;
      }
      permit := Some(Permit(resource, bytes));
      assert Snapshot() == old(Snapshot()).Charge(permit.value);
      live := live + [permit.value];
      ChargedTotals(old(Snapshot()), old(live), permit.value);
    }

    /** Dropping a permit, the `k`-th of the live ones, gives back just what it took. */
    method Drop(permit: Permit, ghost k: nat)
      requires Valid() && k < |live| && live[k] == permit
      modifies this
      ensures Valid()
      ensures live == Without(old(live), k) && overloads == old(overloads)
      ensures Snapshot().Charge(permit) == old(Snapshot())
    {
      match permit.resource {
        case Connection => connections := connections - 1;
        case Request => pendingRequests := pendingRequests - 1;
        case Data =>
          queuedMessages := queuedMessages - 1;
          queuedBytes := queuedBytes - permit.bytes;
        case Control =>
          controlMessages := controlMessages - 1;
          controlBytes := controlBytes - permit.bytes;
        case Handler =>
          handlerTasks := handlerTasks - 1;
          handlerBytes := handlerBytes - permit.bytes;
      }
      assert Snapshot() == old(Snapshot()).Refund(permit);
      live := Without(live, k);
      RefundedTotals(old(Snapshot()), old(live), k, limits);
    }
  }

  /** `Session::reserve`: the session's own budget first, then the shared one. A refusal by the
      shared budget drops the local permit again. */
  method ReserveBoth(own: ResourceBudget, shared: ResourceBudget, resource: Resource, bytes: nat)
    returns (permits: Option<(Permit, Permit)>)
    requires own.Valid() && shared.Valid() && own != shared
    modifies own, shared
    ensures own.Valid() && shared.Valid()
    ensures var p := Permit(resource, bytes);
            permits.Some? <==> WithinLimits(old(own.Snapshot()).Charge(p), own.limits)
                               && WithinLimits(old(shared.Snapshot()).Charge(p), shared.limits)
    ensures permits.Some? ==> permits.value.0 == permits.value.1 == Permit(resource, bytes)
    ensures permits.Some? ==> own.live == old(own.live) + [permits.value.0]
                              && shared.live == old(shared.live) + [permits.value.1]
    ensures permits.None? ==> own.live == old(own.live) && shared.live == old(shared.live)
                              && own.Snapshot() == old(own.Snapshot())
                              && shared.Snapshot() == old(shared.Snapshot())
  {
    var first := own.Reserve(resource, bytes);
    if first.None? {
      return None;
    }
    var second := shared.Reserve(resource, bytes);
    if second.None? {
      own.Drop(first.value, |own.live| - 1);
      assert own.live == old(own.live);
      SameTotals(own.live, old(own.Snapshot()), own.Snapshot());
      return None;
    }
    permits := Some((first.value, second.value));
  }

  lemma {:induction false} SameTotals(live: seq<Permit>, a: Counts, b: Counts)
    requires Totals(a, live) && Totals(b, live)
    ensures a == b
  {
    assert a.At(Connections) == b.At(Connections);
    assert a.At(PendingRequests) == b.At(PendingRequests);
    assert a.At(QueuedMessages) == b.At(QueuedMessages);
    assert a.At(QueuedBytes) == b.At(QueuedBytes);
    assert a.At(ControlMessages) == b.At(ControlMessages);
    assert a.At(ControlBytes) == b.At(ControlBytes);
    assert a.At(HandlerTasks) == b.At(HandlerTasks);
    assert a.At(HandlerBytes) == b.At(HandlerBytes);
  }
}
