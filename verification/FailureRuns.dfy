/**
 * Whole issuance histories with each dispatch and each outcome as one step:
 * failures of any kind cannot loop. Held names are those in quarantine now; a
 * hold may end at any time unless a theorem says otherwise.
 */
module FailureRuns {
  import opened Text
  import opened Names
  import opened Grouping
  import opened Issuer
  import opened IssuerRuns
  import opened FailureHandling

  /** The names a source reports, none a wildcard, and the mapped zone wildcard each may collapse into. */
  datatype Config = Config(names: set<string>, mapped: string -> Option<string>)

  ghost predicate Sound(c: Config) {
    && (forall d :: d in c.names ==> !IsWildcard(d))
    && (forall d :: d in c.names && c.mapped(d).Some? ==> IsWildcard(c.mapped(d).value))
  }

  /** Everything that can ever be ordered. */
  function Orderable(c: Config): set<string> {
    c.names + set d | d in c.names && c.mapped(d).Some? :: c.mapped(d).value
  }

  /** An order in progress, and the identifier each of its requests was planned into. A finished order is empty. */
  datatype LiveOrder = LiveOrder(order: Order, identifierOf: Request -> string)

  datatype State = State(queue: seq<Request>, live: seq<LiveOrder>, held: set<string>)

  datatype Action =
    | Poll(domain: string, service: string)
    | Dispatch(eligible: string -> bool, sizeOf: string -> nat, keyOf: string -> string, unreachable: set<string>, partitions: seq<seq<string>>)
    | Fail(failing: nat, lines: seq<string>, probes: seq<string>)
    | Limit(limitedOrder: nat, named: seq<string>)
    | AdoptFail(unadopted: nat)
    | Succeed(issued: nat)
    | Abort(aborted: nat)
    | Expire(lapsed: string)

  // ---- Dispatch ----

  function InFlight(live: seq<LiveOrder>): set<string> {
    set i, d | 0 <= i < |live| && d in Domains(live[i].order.requests) :: d
  }

  function Busy(live: seq<LiveOrder>): set<string> {
    set i, x | 0 <= i < |live| && x in live[i].order.identifiers :: x
  }

  /** A retried request is ordered as itself; others as their zone's wildcard unless that is held. */
  function PlannedAs(c: Config, held: set<string>): Request -> string {
    (r: Request) =>
      var wildcard := c.mapped(r.domain);
      if r.retried || wildcard.None? || wildcard.value in held then r.domain else wildcard.value
  }

  function Reachable(batch: seq<Request>, unreachable: set<string>): seq<Request> {
    if batch == [] then [] else
      var before := Reachable(batch[..|batch| - 1], unreachable);
      var r := batch[|batch| - 1];
      if r.domain in unreachable then before else before + [r]
  }

  function Batch(s: State, a: Action): (seq<Request>, seq<Request>)
    requires a.Dispatch?
  {
    NextBatch(s.queue, InFlight(s.live), (d: string) => d !in s.held && a.eligible(d), a.sizeOf, a.keyOf)
  }

  function Requested(s: State, a: Action): seq<Request>
    requires a.Dispatch?
  {
    Reachable(Batch(s, a).0, a.unreachable)
  }

  function Planned(c: Config, s: State, a: Action): Plan
    requires a.Dispatch?
  {
    PlanOrders(Requested(s, a), PlannedAs(c, s.held), a.partitions, Busy(s.live))
  }

  function Launched(plan: Plan, identifierOf: Request -> string): seq<LiveOrder> {
    seq(|plan.orders|, k requires 0 <= k < |plan.orders| => LiveOrder(plan.orders[k], identifierOf))
  }

  predicate IsLive(s: State, k: nat) {
    k < |s.live| && s.live[k].order.identifiers != []
  }

  ghost predicate Enabled(c: Config, s: State, a: Action) {
    match a
    case Poll(domain, _) => domain in c.names
    case Dispatch(_, _, _, _, partitions) =>
      && NoneTwice(Flatten(partitions))
      && (forall x :: x in Flatten(partitions) <==> exists r :: r in Requested(s, a) && PlannedAs(c, s.held)(r) == x)
    case Fail(k, lines, probes) =>
      && IsLive(s, k)
      && (forall x :: x in lines ==> x in s.live[k].order.identifiers)
      && (forall x :: x in probes ==> x in s.live[k].order.identifiers)
    case Limit(k, _) => IsLive(s, k)
    case AdoptFail(k) => IsLive(s, k)
    case Succeed(k) => IsLive(s, k)
    case Abort(k) => IsLive(s, k)
    case Expire(_) => true
  }

  function Finished(s: State, k: nat): State
    requires k < |s.live|
  {
    s.(live := s.live[k := s.live[k].(order := Order([], []))])
  }

  ghost function Step(c: Config, s: State, a: Action): State
    requires Enabled(c, s, a)
  {
    match a
    case Poll(domain, service) =>
      if domain in s.held || domain in Domains(s.queue) || domain in InFlight(s.live) then s
      else s.(queue := s.queue + [Request(domain, service, false)])
    case Dispatch(_, _, _, unreachable, _) =>
      var (batch, left) := Batch(s, a);
      State(left, s.live + Launched(Planned(c, s, a), PlannedAs(c, s.held)), s.held + Domains(batch) * unreachable)
    case Fail(k, lines, probes) =>
      var o := s.live[k];
      var failed := IdentifyFailed(lines, probes, o.order.identifiers);
      Finished(s, k).(queue := Requeued(s.queue, Survivors(o.order.requests, failed, o.identifierOf)),
                      held := s.held + FailureHolds(o.order, failed, o.identifierOf))
    case Limit(k, named) =>
      var o := s.live[k];
      var limited := Limited(named, o.order.identifiers);
      Finished(s, k).(queue := Requeued(s.queue, LimitSurvivors(o.order, limited, o.identifierOf)),
                      held := s.held + LimitHolds(o.order, limited))
    case AdoptFail(k) => Finished(s, k).(held := s.held + Domains(s.live[k].order.requests))
    case Succeed(k) =>
      Finished(s, k).(held := s.held - Elements(s.live[k].order.identifiers) - Domains(s.live[k].order.requests))
    case Abort(k) => Finished(s, k)
    case Expire(x) => s.(held := s.held - {x})
  }

  // ---- The invariant ----

  ghost predicate Owned(o: LiveOrder, x: string) {
    exists r :: r in o.order.requests && o.identifierOf(r) == x
  }

  /** A name is ordered as itself or as its mapped wildcard. */
  predicate Fits(c: Config, domain: string, identifier: string) {
    identifier == domain || c.mapped(domain) == Some(identifier)
  }

  /** An order's requests are known names in their own identifiers, every identifier answers for some request, and nothing is held. */
  ghost predicate Good(c: Config, o: LiveOrder, held: set<string>) {
    && Distinct(o.order.requests)
    && (forall r :: r in o.order.requests ==> r.domain in c.names && o.identifierOf(r) in o.order.identifiers && Fits(c, r.domain, o.identifierOf(r)))
    && (forall x :: x in o.order.identifiers ==> Owned(o, x))
    && Touched(o) !! held
  }

  /** All an order can put on hold. */
  function Touched(o: LiveOrder): set<string> {
    Elements(o.order.identifiers) + Domains(o.order.requests)
  }

  ghost predicate AllGood(c: Config, s: State) {
    forall i :: 0 <= i < |s.live| ==> Good(c, s.live[i], s.held)
  }

  ghost predicate Apart(live: seq<LiveOrder>) {
    forall i, j :: 0 <= i < j < |live| ==> Touched(live[i]) !! Touched(live[j])
  }

  ghost predicate Inv(c: Config, s: State) {
    && Distinct(s.queue) && Domains(s.queue) <= c.names
    && AllGood(c, s) && Apart(s.live)
    && Domains(s.queue) !! InFlight(s.live)
  }

  /** Two orders share nothing when they share no request name and no wildcard. */
  lemma TouchedApart(c: Config, a: LiveOrder, b: LiveOrder)
    requires Sound(c) && Good(c, a, {}) && Good(c, b, {})
    requires Domains(a.order.requests) !! Domains(b.order.requests)
    requires forall x :: x in a.order.identifiers && IsWildcard(x) ==> x !in b.order.identifiers
    ensures Touched(a) !! Touched(b)
  {
    forall x | x in Touched(a) && x in Touched(b) ensures false {
      ConcreteIsName(c, a, x);
      ConcreteIsName(c, b, x);
    }
  }

  /** A touched identifier that is no wildcard is a request's own name. */
  lemma ConcreteIsName(c: Config, o: LiveOrder, x: string)
    requires Sound(c) && Good(c, o, {}) && x in Touched(o)
    ensures IsWildcard(x) ==> x in o.order.identifiers
    ensures !IsWildcard(x) ==> x in Domains(o.order.requests)
    ensures x in Orderable(c)
  {
    if x in o.order.identifiers {
      assert Owned(o, x);
      var r :| r in o.order.requests && o.identifierOf(r) == x;
      assert Fits(c, r.domain, x);
    }
  }

  // ---- Dispatch keeps the invariant ----

  lemma {:induction false} ReachableFacts(batch: seq<Request>, unreachable: set<string>)
    ensures var requested := Reachable(batch, unreachable);
            && (forall r :: r in requested <==> r in batch && r.domain !in unreachable)
            && (Distinct(batch) ==> Distinct(requested))
  {
    if batch != [] {
      var front, last := batch[..|batch| - 1], batch[|batch| - 1];
      assert batch == front + [last];
      ReachableFacts(front, unreachable);
      if Distinct(batch) {
        LastDistinct(front, last);
        if last.domain !in unreachable {
          AppendDistinct(Reachable(front, unreachable), last);
        }
      }
    }
  }

  lemma {:induction false} PlannedDistinct(requests: seq<Request>, identifierOf: Request -> string, identifiers: seq<string>)
    requires Distinct(requests)
    ensures Distinct(PlannedInto(requests, identifierOf, identifiers))
  {
    if requests != [] {
      var front, last := requests[..|requests| - 1], requests[|requests| - 1];
      assert requests == front + [last];
      LastDistinct(front, last);
      PlannedDistinct(front, identifierOf, identifiers);
      PlannedFacts(front, identifierOf, identifiers);
      var before := PlannedInto(front, identifierOf, identifiers);
      if identifierOf(last) in identifiers {
        AppendDistinct(before, last);
      }
    }
  }

  lemma HeadDistinct(a: seq<Request>, b: seq<Request>)
    requires Distinct(a + b)
    ensures Distinct(a) && Distinct(b) && Domains(a) !! Domains(b)
  {
    var both := a + b;
    assert forall i :: 0 <= i < |a| ==> both[i] == a[i];
    forall i, j | 0 <= i < |a| && 0 <= j < |b| ensures a[i].domain != b[j].domain {
      assert both[|a| + j] == b[j] && both[i] == a[i];
    }
    TailDistinct(a, b);
  }

  /** What a dispatched batch is: known, issuable names, apart from the queue it leaves. */
  lemma BatchFacts(c: Config, s: State, a: Action)
    requires Inv(c, s) && a.Dispatch?
    ensures var (batch, left) := Batch(s, a);
            && Distinct(batch) && Distinct(left) && Domains(batch) !! Domains(left)
            && Domains(batch) <= c.names && Domains(left) <= Domains(s.queue)
            && Domains(batch) <= Domains(s.queue) && Domains(batch) !! s.held && Domains(batch) !! InFlight(s.live)
            && (forall r :: r in batch ==> r in s.queue) && (forall r :: r in left ==> r in s.queue)
            && Distinct(Requested(s, a)) && (forall r :: r in Requested(s, a) <==> r in batch && r.domain !in a.unreachable)
  {
    var ok := (d: string) => d !in s.held && a.eligible(d);
    NextBatchLaw(s.queue, InFlight(s.live), ok, a.sizeOf, a.keyOf);
    NextBatchDistinct(s.queue, InFlight(s.live), ok, a.sizeOf, a.keyOf);
    var (batch, left) := Batch(s, a);
    HeadDistinct(batch, left);
    ReachableFacts(batch, a.unreachable);
    forall r | r in batch ensures r in s.queue && r.domain !in s.held && r.domain !in InFlight(s.live) { }
  }

  lemma PlannedAsFits(c: Config, s: State, r: Request)
    requires Sound(c) && r.domain in c.names
    ensures var x := PlannedAs(c, s.held)(r);
            && Fits(c, r.domain, x) && (IsWildcard(x) ==> x !in s.held) && (!IsWildcard(x) ==> x == r.domain)
  {
  }

  /** Each launched order is good even against what the pre-flight probes just held. */
  lemma LaunchedGood(c: Config, s: State, a: Action, k: nat)
    requires Sound(c) && Inv(c, s) && a.Dispatch? && Enabled(c, s, a) && k < |Planned(c, s, a).orders|
    ensures Good(c, Launched(Planned(c, s, a), PlannedAs(c, s.held))[k], Step(c, s, a).held)
    ensures Domains(Planned(c, s, a).orders[k].requests) <= Domains(Batch(s, a).0)
    ensures forall x :: x in Planned(c, s, a).orders[k].identifiers && IsWildcard(x) ==> x !in Busy(s.live)
  {
    BatchFacts(c, s, a);
    var requested, idOf := Requested(s, a), PlannedAs(c, s.held);
    PlannedOrder(requested, idOf, a.partitions, Busy(s.live), k);
    var order := Planned(c, s, a).orders[k];
    var o := LiveOrder(order, idOf);
    PlannedDistinct(requested, idOf, order.identifiers);
    var held := Step(c, s, a).held;
    forall r | r in order.requests
      ensures r.domain in c.names && Fits(c, r.domain, idOf(r)) && r.domain !in held && r.domain in Domains(Batch(s, a).0)
    {
      assert r in Batch(s, a).0 && r.domain in Domains(Batch(s, a).0);
      PlannedAsFits(c, s, r);
    }
    forall x | x in order.identifiers ensures Owned(o, x) && x !in held {
      var r :| r in requested && idOf(r) == x;
      assert r in order.requests;
      PlannedAsFits(c, s, r);
    }
  }

  lemma LaunchedApart(c: Config, s: State, a: Action, k: nat, l: nat)
    requires Sound(c) && Inv(c, s) && a.Dispatch? && Enabled(c, s, a) && k < l < |Planned(c, s, a).orders|
    ensures var launched := Launched(Planned(c, s, a), PlannedAs(c, s.held));
            Touched(launched[k]) !! Touched(launched[l])
  {
    BatchFacts(c, s, a);
    var requested, idOf := Requested(s, a), PlannedAs(c, s.held);
    var launched := Launched(Planned(c, s, a), idOf);
    LaunchedGood(c, s, a, k);
    LaunchedGood(c, s, a, l);
    PlannedOrder(requested, idOf, a.partitions, Busy(s.live), k);
    PlannedOrder(requested, idOf, a.partitions, Busy(s.live), l);
    forall d | d in Domains(launched[k].order.requests) && d in Domains(launched[l].order.requests) ensures false {
      var r :| r in launched[k].order.requests && r.domain == d;
      var t :| t in launched[l].order.requests && t.domain == d;
      SameRequest(requested, r, t);
      PlannedApart(requested, idOf, a.partitions, Busy(s.live), k, l, idOf(r));
    }
    forall x | x in launched[k].order.identifiers && IsWildcard(x) ensures x !in launched[l].order.identifiers {
      PlannedApart(requested, idOf, a.partitions, Busy(s.live), k, l, x);
    }
    TouchedApart(c, launched[k], launched[l]);
  }

  lemma LaunchedFromLive(c: Config, s: State, a: Action, i: nat, k: nat)
    requires Sound(c) && Inv(c, s) && a.Dispatch? && Enabled(c, s, a) && i < |s.live| && k < |Planned(c, s, a).orders|
    ensures Touched(s.live[i]) !! Touched(Launched(Planned(c, s, a), PlannedAs(c, s.held))[k])
  {
    BatchFacts(c, s, a);
    LaunchedGood(c, s, a, k);
    var o := Launched(Planned(c, s, a), PlannedAs(c, s.held))[k];
    assert Domains(s.live[i].order.requests) <= InFlight(s.live);
    assert Good(c, s.live[i], {}) && Good(c, o, {});
    forall x | x in s.live[i].order.identifiers && IsWildcard(x) ensures x !in o.order.identifiers {
      assert x in Busy(s.live);
    }
    TouchedApart(c, s.live[i], o);
  }

  /** A probe failure holds only the batch's own names, which no live order touches. */
  lemma LiveUnaffected(c: Config, s: State, a: Action, i: nat)
    requires Sound(c) && Inv(c, s) && a.Dispatch? && Enabled(c, s, a) && i < |s.live|
    ensures Good(c, s.live[i], Step(c, s, a).held)
  {
    BatchFacts(c, s, a);
    var o := s.live[i];
    forall x | x in Touched(o) ensures x !in Domains(Batch(s, a).0) {
      ConcreteIsName(c, o, x);
      if !IsWildcard(x) { assert x in InFlight(s.live); }
    }
  }

  lemma DispatchGood(c: Config, s: State, a: Action)
    requires Sound(c) && Inv(c, s) && a.Dispatch? && Enabled(c, s, a)
    ensures AllGood(c, Step(c, s, a))
  {
    var next := Step(c, s, a);
    var n := |s.live|;
    forall i | 0 <= i < |next.live| ensures Good(c, next.live[i], next.held) {
      if i < n { LiveUnaffected(c, s, a, i); } else { LaunchedGood(c, s, a, i - n); }
    }
  }

  lemma DispatchPair(c: Config, s: State, a: Action, i: nat, j: nat)
    requires Sound(c) && Inv(c, s) && a.Dispatch? && Enabled(c, s, a) && i < j < |Step(c, s, a).live|
    ensures Touched(Step(c, s, a).live[i]) !! Touched(Step(c, s, a).live[j])
  {
    var n := |s.live|;
    if j >= n {
      if i < n { LaunchedFromLive(c, s, a, i, j - n); } else { LaunchedApart(c, s, a, i - n, j - n); }
    }
  }

  lemma DispatchApart(c: Config, s: State, a: Action)
    requires Sound(c) && Inv(c, s) && a.Dispatch? && Enabled(c, s, a)
    ensures Apart(Step(c, s, a).live)
  {
    var live := Step(c, s, a).live;
    forall i, j | 0 <= i < j < |live| ensures Touched(live[i]) !! Touched(live[j]) {
      DispatchPair(c, s, a, i, j);
    }
  }

  /** What a dispatch leaves queued is in no order, old or new. */
  lemma DispatchQueue(c: Config, s: State, a: Action, i: nat)
    requires Sound(c) && Inv(c, s) && a.Dispatch? && Enabled(c, s, a) && i < |Step(c, s, a).live|
    ensures Domains(Step(c, s, a).queue) !! Domains(Step(c, s, a).live[i].order.requests)
  {
    BatchFacts(c, s, a);
    if i < |s.live| {
      assert Domains(s.live[i].order.requests) <= InFlight(s.live);
    } else {
      LaunchedGood(c, s, a, i - |s.live|);
    }
  }

  lemma DispatchStep(c: Config, s: State, a: Action)
    requires Sound(c) && Inv(c, s) && a.Dispatch? && Enabled(c, s, a)
    ensures Inv(c, Step(c, s, a))
  {
    BatchFacts(c, s, a);
    DispatchGood(c, s, a);
    DispatchApart(c, s, a);
    forall i | 0 <= i < |Step(c, s, a).live|
      ensures Domains(Step(c, s, a).queue) !! Domains(Step(c, s, a).live[i].order.requests)
    {
      DispatchQueue(c, s, a, i);
    }
  }

  // ---- Outcomes keep the invariant ----

  /** Finishing one order, holding only what it touched and requeueing only its own names. */
  lemma OutcomeStep(c: Config, s: State, k: nat, survivors: seq<Request>, held: set<string>)
    requires Sound(c) && Inv(c, s) && k < |s.live|
    requires Domains(survivors) <= Domains(s.live[k].order.requests)
    requires held <= s.held + Touched(s.live[k])
    ensures Inv(c, Finished(s, k).(queue := Requeued(s.queue, survivors), held := held))
  {
    var next := Finished(s, k).(queue := Requeued(s.queue, survivors), held := held);
    RequeuedLaw(s.queue, survivors);
    assert Touched(next.live[k]) == {};
    forall i | 0 <= i < |next.live| ensures Good(c, next.live[i], held) {
      if i != k {
        assert Touched(s.live[i]) !! Touched(s.live[k]);
      }
    }
    NoLongerInFlight(s, k);
    forall d | d in Domains(s.live[k].order.requests) ensures d in c.names { }
  }

  lemma NoLongerInFlight(s: State, k: nat)
    requires k < |s.live| && Apart(s.live)
    ensures InFlight(Finished(s, k).live) <= InFlight(s.live)
    ensures InFlight(Finished(s, k).live) !! Domains(s.live[k].order.requests)
  {
    var live := Finished(s, k).live;
    forall d | d in InFlight(live) ensures d in InFlight(s.live) && d !in Domains(s.live[k].order.requests) {
      var i :| 0 <= i < |live| && d in Domains(live[i].order.requests);
      assert i != k && live[i] == s.live[i];
      assert Touched(s.live[i]) !! Touched(s.live[k]);
      assert d in Touched(s.live[i]);
    }
  }

  lemma FailureHoldsTouched(o: LiveOrder, failed: seq<string>)
    requires forall x :: x in failed ==> x in o.order.identifiers
    ensures FailureHolds(o.order, failed, o.identifierOf) <= Touched(o)
  {
  }

  lemma LimitedFacts(named: seq<string>, domains: seq<string>)
    ensures forall x :: x in Limited(named, domains) ==> x in domains
  {
    FilterFacts(domains, (d: string) => NamedBy(named, d));
    FilterFacts(domains, (d: string) => RegisteredUnder(named, d));
  }

  lemma StepKeepsInv(c: Config, s: State, a: Action)
    requires Sound(c) && Inv(c, s) && Enabled(c, s, a)
    ensures Inv(c, Step(c, s, a))
  {
    match a
    case Poll(domain, service) =>
      if domain !in Domains(s.queue) {
        AppendDistinct(s.queue, Request(domain, service, false));
      }
    case Dispatch(_, _, _, _, _) => DispatchStep(c, s, a);
    case Fail(k, lines, probes) =>
      var o := s.live[k];
      var failed := IdentifyFailed(lines, probes, o.order.identifiers);
      SurvivorFacts(o.order.requests, failed, o.identifierOf);
      FailureHoldsTouched(o, failed);
      OutcomeStep(c, s, k, Survivors(o.order.requests, failed, o.identifierOf), Step(c, s, a).held);
    case Limit(k, named) =>
      var o := s.live[k];
      var limited := Limited(named, o.order.identifiers);
      LimitedFacts(named, o.order.identifiers);
      ResubmittedFacts(o.order.requests, limited, o.identifierOf);
      OutcomeStep(c, s, k, LimitSurvivors(o.order, limited, o.identifierOf), Step(c, s, a).held);
    case AdoptFail(k) => OutcomeStep(c, s, k, [], Step(c, s, a).held);
    case Succeed(k) => OutcomeStep(c, s, k, [], Step(c, s, a).held);
    case Abort(k) => OutcomeStep(c, s, k, [], s.held);
    case Expire(_) =>
      forall i | 0 <= i < |s.live| ensures Good(c, s.live[i], Step(c, s, a).held) { }
  }

  // ---- Runs ----

  ghost predicate IsRun(c: Config, run: seq<State>, actions: seq<Action>) {
    && |run| == |actions| + 1 && run[0] == State([], [], run[0].held)
    && forall i :: 0 <= i < |actions| ==> Enabled(c, run[i], actions[i]) && run[i + 1] == Step(c, run[i], actions[i])
  }

  lemma {:induction false} RunInv(c: Config, run: seq<State>, actions: seq<Action>, at: nat)
    requires Sound(c) && IsRun(c, run, actions) && at < |run|
    ensures Inv(c, run[at])
  {
    if at > 0 {
      RunInv(c, run, actions, at - 1);
      StepKeepsInv(c, run[at - 1], actions[at - 1]);
    }
  }

  /** After any failed or limited order, each of its requests is held, or waits in the queue and nowhere else. */
  lemma HeldOrQueuedOnce(c: Config, s: State, a: Action, k: nat, r: Request)
    requires Sound(c) && Inv(c, s) && Enabled(c, s, a)
    requires (a.Fail? && a.failing == k) || (a.Limit? && a.limitedOrder == k)
    requires r in s.live[k].order.requests
    ensures var next := Step(c, s, a);
            && (r.domain in next.held || r.domain in Domains(next.queue))
            && Distinct(next.queue) && r.domain !in InFlight(next.live)
  {
    var next := Step(c, s, a);
    var o := s.live[k];
    StepKeepsInv(c, s, a);
    NoLongerInFlight(s, k);
    assert r.domain in Domains(o.order.requests);
    if a.Fail? {
      var failed := IdentifyFailed(a.lines, a.probes, o.order.identifiers);
      FailedRequest(c, o, failed, r, s.held);
      RequeuedLaw(s.queue, Survivors(o.order.requests, failed, o.identifierOf));
    } else {
      var limited := Limited(a.named, o.order.identifiers);
      ResubmittedFacts(o.order.requests, limited, o.identifierOf);
      RequeuedLaw(s.queue, LimitSurvivors(o.order, limited, o.identifierOf));
      if limited != [] && Culprit(limited, o.identifierOf, r) {
        CulpritIsItself(c, o, limited, r, s.held);
      } else if limited != [] {
        assert r in Resubmitted(o.order.requests, limited, o.identifierOf);
      }
    }
  }

  lemma CulpritIsItself(c: Config, o: LiveOrder, failed: seq<string>, r: Request, held: set<string>)
    requires Sound(c) && Good(c, o, held) && r in o.order.requests && Culprit(failed, o.identifierOf, r)
    ensures r.domain in failed
  {
    assert Fits(c, r.domain, o.identifierOf(r));
  }

  /** A request of a failed order is held, or survives with its one retry marked spent. */
  lemma FailedRequest(c: Config, o: LiveOrder, failed: seq<string>, r: Request, held: set<string>)
    requires Sound(c) && Good(c, o, held) && r in o.order.requests
    ensures r.retried || Culprit(failed, o.identifierOf, r) ==> r.domain in FailureHolds(o.order, failed, o.identifierOf)
    ensures !r.retried && !Culprit(failed, o.identifierOf, r) ==>
              r.(retried := true) in Survivors(o.order.requests, failed, o.identifierOf)
              && r.domain in Domains(Survivors(o.order.requests, failed, o.identifierOf))
  {
    SurvivorFacts(o.order.requests, failed, o.identifierOf);
    if Culprit(failed, o.identifierOf, r) {
      CulpritIsItself(c, o, failed, r, held);
    } else if !r.retried {
      assert r.(retried := true) in Survivors(o.order.requests, failed, o.identifierOf);
    }
  }

  // ---- At most two strikes ----

  /** The request is waiting or in an order. */
  ghost predicate Present(s: State, r: Request) {
    r in s.queue || exists i :: 0 <= i < |s.live| && r in s.live[i].order.requests
  }

  ghost predicate Resting(s: State, d: string) {
    d in s.held || (d !in Domains(s.queue) && d !in InFlight(s.live))
  }

  /** A failed order, not a rate-limited one, with the name among its requests. */
  ghost predicate Strikes(s: State, a: Action, d: string) {
    a.Fail? && a.failing < |s.live| && d in Domains(s.live[a.failing].order.requests)
  }

  /** Failed orders a name took part in since it was last held or absent. */
  ghost function StrikeCount(run: seq<State>, actions: seq<Action>, at: nat, d: string): nat
    requires at < |run| && |run| == |actions| + 1
  {
    if at == 0 || Resting(run[at], d) then 0
    else StrikeCount(run, actions, at - 1, d) + if Strikes(run[at - 1], actions[at - 1], d) then 1 else 0
  }

  ghost predicate Counted(run: seq<State>, actions: seq<Action>, at: nat, r: Request)
    requires at < |run| && |run| == |actions| + 1
  {
    StrikeCount(run, actions, at, r.domain) <= if r.retried then 1 else 0
  }

  /** Where a request present after a step came from. */
  lemma Provenance(c: Config, s: State, a: Action, r: Request)
    requires Sound(c) && Inv(c, s) && Enabled(c, s, a) && Present(Step(c, s, a), r)
    ensures || (Present(s, r) && !Strikes(s, a, r.domain))
            || (!r.retried && Resting(s, r.domain) && !Strikes(s, a, r.domain))
            || (r.retried && Present(s, r.(retried := false)))
  {
    var next := Step(c, s, a);
    if a.Poll? {
    } else if a.Dispatch? {
      DispatchProvenance(c, s, a, r);
    } else if a.Fail? {
      FailProvenance(c, s, a, r);
    } else if !a.Expire? {
      var k := if a.Limit? then a.limitedOrder else if a.AdoptFail? then a.unadopted else if a.Succeed? then a.issued else a.aborted;
      var o := s.live[k];
      if a.Limit? {
        var limited := Limited(a.named, o.order.identifiers);
        ResubmittedFacts(o.order.requests, limited, o.identifierOf);
        RequeuedLaw(s.queue, LimitSurvivors(o.order, limited, o.identifierOf));
      }
      if r !in next.queue {
        var i :| 0 <= i < |next.live| && r in next.live[i].order.requests;
        assert r in s.live[i].order.requests;
      }
    }
  }

  lemma LaunchedFromQueue(c: Config, s: State, a: Action, k: nat, r: Request)
    requires Inv(c, s) && a.Dispatch? && k < |Planned(c, s, a).orders| && r in Planned(c, s, a).orders[k].requests
    ensures r in s.queue
  {
    BatchFacts(c, s, a);
    PlannedOrder(Requested(s, a), PlannedAs(c, s.held), a.partitions, Busy(s.live), k);
  }

  lemma FlyingFrom(c: Config, s: State, a: Action, i: nat, r: Request)
    requires Sound(c) && Inv(c, s) && a.Dispatch? && Enabled(c, s, a)
    requires i < |Step(c, s, a).live| && r in Step(c, s, a).live[i].order.requests
    ensures Present(s, r)
  {
    if i < |s.live| {
      assert r in s.live[i].order.requests;
    } else {
      LaunchedFromQueue(c, s, a, i - |s.live|, r);
    }
  }

  lemma LeftFrom(c: Config, s: State, a: Action, r: Request)
    requires Inv(c, s) && a.Dispatch? && Enabled(c, s, a) && r in Step(c, s, a).queue
    ensures r in s.queue
  {
    BatchFacts(c, s, a);
  }

  lemma DispatchProvenance(c: Config, s: State, a: Action, r: Request)
    requires Sound(c) && Inv(c, s) && a.Dispatch? && Enabled(c, s, a) && Present(Step(c, s, a), r)
    ensures Present(s, r)
  {
    if r in Step(c, s, a).queue {
      LeftFrom(c, s, a, r);
    } else {
      var i :| 0 <= i < |Step(c, s, a).live| && r in Step(c, s, a).live[i].order.requests;
      FlyingFrom(c, s, a, i, r);
    }
  }

  lemma FailProvenance(c: Config, s: State, a: Action, r: Request)
    requires Sound(c) && Inv(c, s) && a.Fail? && Enabled(c, s, a) && Present(Step(c, s, a), r)
    ensures (Present(s, r) && !Strikes(s, a, r.domain)) || (r.retried && Present(s, r.(retried := false)))
  {
    var next := Step(c, s, a);
    var o := s.live[a.failing];
    var failed := IdentifyFailed(a.lines, a.probes, o.order.identifiers);
    if r in next.queue {
      RequeuedProvenance(c, s, a.failing, failed, r);
    } else {
      var i :| 0 <= i < |next.live| && r in next.live[i].order.requests;
      FlyingNotStruck(s, a.failing, i, r);
    }
  }

  lemma RequeuedProvenance(c: Config, s: State, k: nat, failed: seq<string>, r: Request)
    requires Inv(c, s) && k < |s.live|
    requires r in Requeued(s.queue, Survivors(s.live[k].order.requests, failed, s.live[k].identifierOf))
    ensures (Present(s, r) && r.domain !in Domains(s.live[k].order.requests)) || (r.retried && Present(s, r.(retried := false)))
  {
    var o := s.live[k];
    SurvivorFacts(o.order.requests, failed, o.identifierOf);
    RequeuedLaw(s.queue, Survivors(o.order.requests, failed, o.identifierOf));
    if r in s.queue {
      QueuedNotStruck(c, s, k, r);
    } else {
      SurvivorWasPresent(s, k, failed, r);
    }
  }

  lemma FlyingNotStruck(s: State, k: nat, i: nat, r: Request)
    requires Apart(s.live) && k < |s.live| && i < |s.live| && r in Finished(s, k).live[i].order.requests
    ensures Present(s, r) && r.domain !in Domains(s.live[k].order.requests)
  {
    assert r in s.live[i].order.requests;
    assert r.domain in Domains(Finished(s, k).live[i].order.requests);
    assert r.domain in InFlight(Finished(s, k).live);
    NoLongerInFlight(s, k);
  }

  lemma SurvivorWasPresent(s: State, k: nat, failed: seq<string>, r: Request)
    requires k < |s.live| && SurvivorOf(s.live[k].order.requests, failed, s.live[k].identifierOf, r)
    ensures r.retried && Present(s, r.(retried := false))
  {
    var t :| t in s.live[k].order.requests && !t.retried && r == t.(retried := true);
    assert r.(retried := false) == t;
  }

  lemma QueuedNotStruck(c: Config, s: State, k: nat, r: Request)
    requires Inv(c, s) && k < |s.live| && r in s.queue
    ensures r.domain !in Domains(s.live[k].order.requests)
  {
    assert r.domain in Domains(s.queue);
    assert Domains(s.live[k].order.requests) <= InFlight(s.live);
  }

  /** A waiting or ordered request has no strike, or one and its retry marked. */
  lemma {:induction false} RunCounted(c: Config, run: seq<State>, actions: seq<Action>, at: nat, r: Request)
    requires Sound(c) && IsRun(c, run, actions) && at < |run| && Present(run[at], r)
    ensures Counted(run, actions, at, r)
  {
    if at > 0 {
      RunInv(c, run, actions, at - 1);
      var s, a := run[at - 1], actions[at - 1];
      Provenance(c, s, a, r);
      CountStep(run, actions, at, r.domain);
      if Present(s, r) && !Strikes(s, a, r.domain) {
        RunCounted(c, run, actions, at - 1, r);
      } else if r.retried && Present(s, r.(retried := false)) {
        RunCounted(c, run, actions, at - 1, r.(retried := false));
      }
    }
  }

  /** A step adds at most its own strike, and a resting name has none. */
  lemma CountStep(run: seq<State>, actions: seq<Action>, at: nat, d: string)
    requires 0 < at < |run| && |run| == |actions| + 1
    ensures StrikeCount(run, actions, at, d)
            <= StrikeCount(run, actions, at - 1, d) + if Strikes(run[at - 1], actions[at - 1], d) then 1 else 0
    ensures Resting(run[at - 1], d) ==> StrikeCount(run, actions, at - 1, d) == 0
  {
  }

  /**
   * Over every history, a name takes part in at most two failed orders before it
   * is held: it never carries more than one strike, and the next one holds it.
   */
  lemma TwoStrikesHold(c: Config, run: seq<State>, actions: seq<Action>, at: nat, d: string)
    requires Sound(c) && IsRun(c, run, actions) && at < |actions| && Strikes(run[at], actions[at], d)
    ensures StrikeCount(run, actions, at, d) <= 1
    ensures StrikeCount(run, actions, at, d) == 1 ==> d in run[at + 1].held
  {
    RunInv(c, run, actions, at);
    var s, a := run[at], actions[at];
    var o := s.live[a.failing];
    var r :| r in o.order.requests && r.domain == d;
    assert Present(s, r);
    RunCounted(c, run, actions, at, r);
    var failed := IdentifyFailed(a.lines, a.probes, o.order.identifiers);
    FailedRequest(c, o, failed, r, s.held);
  }

  // ---- Failures run out ----

  predicate Rejected(a: Action) {
    a.Fail? || a.Limit? || a.AdoptFail?
  }

  function Rejections(actions: seq<Action>): nat {
    if actions == [] then 0 else Rejections(actions[..|actions| - 1]) + if Rejected(actions[|actions| - 1]) then 1 else 0
  }

  /** While no hold ends, every step keeps every hold and a rejected order adds one that can never be ordered again. */
  lemma RejectionHoldsMore(c: Config, s: State, a: Action) returns (x: string)
    requires Sound(c) && Inv(c, s) && Enabled(c, s, a) && !a.Expire?
    ensures s.held <= Step(c, s, a).held
    ensures Rejected(a) ==> x in Orderable(c) && x !in s.held && x in Step(c, s, a).held
  {
    x := "";
    if a.Fail? || a.Limit? || a.AdoptFail? {
      var k := if a.Fail? then a.failing else if a.Limit? then a.limitedOrder else a.unadopted;
      var o := s.live[k];
      assert Good(c, o, s.held);
      assert o.order.identifiers[0] in o.order.identifiers;
      if a.Fail? {
        var failed := IdentifyFailed(a.lines, a.probes, o.order.identifiers);
        x := failed[0];
        assert x in failed;
      } else if a.Limit? {
        LimitedFacts(a.named, o.order.identifiers);
        var limited := Limited(a.named, o.order.identifiers);
        x := if limited == [] then o.order.identifiers[0] else limited[0];
      } else {
        assert Owned(o, o.order.identifiers[0]);
        var r :| r in o.order.requests;
        x := r.domain;
      }
      assert x in Touched(o);
      ConcreteIsName(c, o, x);
    } else if a.Succeed? {
      assert Good(c, s.live[a.issued], s.held);
    }
  }

  /** Orderable identifiers put on hold since the start. */
  function HeldSince(c: Config, start: set<string>, held: set<string>): nat {
    |(held - start) * Orderable(c)|
  }

  lemma StepHeldSince(c: Config, s: State, a: Action, start: set<string>)
    requires Sound(c) && Inv(c, s) && Enabled(c, s, a) && !a.Expire? && start <= s.held
    ensures start <= Step(c, s, a).held
    ensures HeldSince(c, start, s.held) + (if Rejected(a) then 1 else 0) <= HeldSince(c, start, Step(c, s, a).held)
  {
    var x := RejectionHoldsMore(c, s, a);
    HeldGrows(start, s.held, Step(c, s, a).held, Orderable(c), x, Rejected(a));
  }

  lemma RejectionsStep(actions: seq<Action>, at: nat)
    requires 0 < at <= |actions|
    ensures Rejections(actions[..at]) == Rejections(actions[..at - 1]) + if Rejected(actions[at - 1]) then 1 else 0
  {
    assert actions[..at][..at - 1] == actions[..at - 1];
  }

  /** Rejections so far are at most the orderable identifiers held since the start. */
  lemma {:induction false} RejectionsCounted(c: Config, run: seq<State>, actions: seq<Action>, at: nat)
    requires Sound(c) && IsRun(c, run, actions) && at < |run|
    requires forall i :: 0 <= i < at ==> !actions[i].Expire?
    ensures run[0].held <= run[at].held
    ensures Rejections(actions[..at]) <= HeldSince(c, run[0].held, run[at].held)
  {
    if at > 0 {
      RejectionsCounted(c, run, actions, at - 1);
      RunInv(c, run, actions, at - 1);
      StepHeldSince(c, run[at - 1], actions[at - 1], run[0].held);
      RejectionsStep(actions, at);
    }
  }

  /** New holds are counted once, and a rejection adds at least one. */
  lemma HeldGrows(start: set<string>, held: set<string>, more: set<string>, orderable: set<string>, x: string, rejected: bool)
    requires held <= more && start <= held && (rejected ==> x in orderable && x !in held && x in more)
    ensures |(held - start) * orderable| + (if rejected then 1 else 0) <= |(more - start) * orderable|
  {
    var before, after := (held - start) * orderable, (more - start) * orderable;
    if rejected {
      Larger(before + {x}, after);
    } else {
      Larger(before, after);
    }
  }

  lemma Larger<T>(a: set<T>, b: set<T>)
    requires a <= b
    ensures |a| <= |b|
  {
    assert b == a + (b - a);
  }

  /**
   * While no hold ends, the orders rejected for any reason -- rate limits, failed
   * validations, unusable certificates -- are no more than the names and mapped
   * wildcards that were not held at the start, however work interleaves.
   */
  lemma RejectionsBounded(c: Config, run: seq<State>, actions: seq<Action>)
    requires Sound(c) && IsRun(c, run, actions)
    requires forall i :: 0 <= i < |actions| ==> !actions[i].Expire?
    ensures Rejections(actions) <= |Orderable(c) - run[0].held|
  {
    RejectionsCounted(c, run, actions, |actions|);
    assert actions[..|actions|] == actions;
    Larger((run[|actions|].held - run[0].held) * Orderable(c), Orderable(c) - run[0].held);
  }

  /** No order is live, polling every name queues nothing, and the queue yields no batch. */
  ghost predicate Quiet(c: Config, s: State, service: string, sizeOf: string -> nat, keyOf: string -> string) {
    && (forall i :: 0 <= i < |s.live| ==> s.live[i].order == Order([], []))
    && (forall d :: d in c.names ==> Step(c, s, Poll(d, service)) == s)
    && NextBatch(s.queue, InFlight(s.live), (d: string) => d !in s.held, sizeOf, keyOf).0 == []
  }

  /** So when work stops, it stops with every name held. */
  lemma QuietMeansHeld(c: Config, s: State, service: string, sizeOf: string -> nat, keyOf: string -> string)
    requires Quiet(c, s, service, sizeOf, keyOf)
    ensures c.names <= s.held
  {
    NextBatchLaw(s.queue, InFlight(s.live), (d: string) => d !in s.held, sizeOf, keyOf);
    forall d | d in c.names ensures d in s.held {
      assert Step(c, s, Poll(d, service)) == s;
      assert |s.queue + [Request(d, service, false)]| == |s.queue| + 1;
    }
  }
}
