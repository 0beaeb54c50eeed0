/**
 * Every interleaving of the issuer's workers, pollers and renewal top-ups, one
 * hold of the lock at a time. Each batch, order and top-up is a holder of names
 * and identifiers; a finished holder holds nothing.
 */
module IssuerRuns {
  import opened Names
  import opened Grouping
  import opened Issuer

  datatype Holder = Holder(names: set<string>, identifiers: set<string>)

  datatype World = World(queue: seq<Request>, inflight: set<string>, busy: set<string>, holders: seq<Holder>)

  datatype Action =
    | Ask(domain: string, service: string, quarantined: bool)
    | Pop(eligible: string -> bool, sizeOf: string -> nat, keyOf: string -> string)
    | TopUp(service: string, n: nat, topUpEligible: string -> bool)
    | Claim(batch: nat, requested: seq<Request>, identifierOf: Request -> string, partitions: seq<seq<string>>)
    | Finish(holder: nat, names: set<string>)
    | Unclaim(order: nat)
    | Return(survivors: seq<Request>)

  function OrderHolders(orders: seq<Order>): seq<Holder> {
    seq(|orders|, k requires 0 <= k < |orders| => Holder(Domains(orders[k].requests), Elements(orders[k].identifiers)))
  }

  /**
   * What each caller respects: it finishes only names it holds, plans only a
   * batch's own requests once each, and splits identifiers into disjoint parts.
   */
  ghost predicate Enabled(w: World, a: Action) {
    match a
    case Claim(batch, requested, _, partitions) =>
      && batch < |w.holders| && w.holders[batch].identifiers == {}
      && Domains(requested) <= w.holders[batch].names && Distinct(requested)
      && NoneTwice(Flatten(partitions))
    case Finish(holder, names) => holder < |w.holders| && names <= w.holders[holder].names
    case Unclaim(order) => order < |w.holders|
    case _ => true
  }

  ghost function Step(w: World, a: Action): World
    requires Enabled(w, a)
  {
    match a
    case Ask(domain, service, quarantined) =>
      if quarantined || domain in Domains(w.queue) || domain in w.inflight then w
      else w.(queue := w.queue + [Request(domain, service, false)])
    case Pop(eligible, sizeOf, keyOf) =>
      var (batch, left) := NextBatch(w.queue, w.inflight, eligible, sizeOf, keyOf);
      World(left, w.inflight + Domains(batch), w.busy, w.holders + [Holder(Domains(batch), {})])
    case TopUp(service, n, eligible) =>
      var (taken, left) := Select(w.queue, PendingFor(service, w.inflight, eligible), n);
      World(left, w.inflight + Domains(taken), w.busy, w.holders + [Holder(Domains(taken), {})])
    case Claim(batch, requested, identifierOf, partitions) =>
      var plan := PlanOrders(requested, identifierOf, partitions, w.busy);
      var kept := w.holders[batch].names - Domains(RequestsOf(plan.orders));
      w.(busy := plan.busy, holders := w.holders[batch := Holder(kept, {})] + OrderHolders(plan.orders))
    case Finish(holder, names) =>
      var h := w.holders[holder];
      w.(inflight := w.inflight - names, holders := w.holders[holder := h.(names := h.names - names)])
    case Unclaim(order) =>
      w.(busy := w.busy - w.holders[order].identifiers, holders := w.holders[order := w.holders[order].(identifiers := {})])
    case Return(survivors) => w.(queue := Requeued(w.queue, survivors))
  }

  // ---- The invariant ----

  /** No name is held twice. */
  ghost predicate NamesApart(holders: seq<Holder>) {
    forall i, j :: 0 <= i < j < |holders| ==> holders[i].names !! holders[j].names
  }

  function AllNames(holders: seq<Holder>): set<string> {
    set i, d | 0 <= i < |holders| && d in holders[i].names :: d
  }

  function Wildcards(h: Holder): set<string> {
    set x | x in h.identifiers && IsWildcard(x)
  }

  /** No wildcard is in two live orders. */
  ghost predicate WildcardsApart(holders: seq<Holder>) {
    forall i, j :: 0 <= i < j < |holders| ==> Wildcards(holders[i]) !! Wildcards(holders[j])
  }

  /** Exactly the wildcards of live orders are marked busy. */
  ghost predicate WildcardsTracked(busy: set<string>, holders: seq<Holder>) {
    && (forall i :: 0 <= i < |holders| ==> Wildcards(holders[i]) <= busy)
    && (forall x :: x in busy && IsWildcard(x) ==> exists i :: 0 <= i < |holders| && x in Wildcards(holders[i]))
  }

  ghost predicate Inv(w: World) {
    && Distinct(w.queue)
    && NamesApart(w.holders) && w.inflight == AllNames(w.holders)
    && WildcardsApart(w.holders) && WildcardsTracked(w.busy, w.holders)
  }

  const Start := World([], {}, {}, [])

  lemma AddHolder(w: World, queue: seq<Request>, names: set<string>)
    requires Inv(w) && Distinct(queue) && names !! w.inflight
    ensures Inv(World(queue, w.inflight + names, w.busy, w.holders + [Holder(names, {})]))
  {
    var after := w.holders + [Holder(names, {})];
    forall i | 0 <= i < |w.holders| ensures w.holders[i].names !! names {
      assert w.holders[i].names <= AllNames(w.holders);
    }
    forall d ensures d in AllNames(after) <==> d in w.inflight + names {
      if d in names { assert d in after[|w.holders|].names; }
      if d in w.inflight {
        var i :| 0 <= i < |w.holders| && d in w.holders[i].names;
        assert after[i] == w.holders[i];
      }
    }
    forall x | x in w.busy && IsWildcard(x) ensures exists i :: 0 <= i < |after| && x in Wildcards(after[i]) {
      var i :| 0 <= i < |w.holders| && x in Wildcards(w.holders[i]);
      assert after[i] == w.holders[i];
    }
    assert Wildcards(after[|w.holders|]) == {};
  }

  lemma PopStep(w: World, eligible: string -> bool, sizeOf: string -> nat, keyOf: string -> string)
    requires Inv(w)
    ensures Inv(Step(w, Pop(eligible, sizeOf, keyOf)))
  {
    NextBatchLaw(w.queue, w.inflight, eligible, sizeOf, keyOf);
    NextBatchDistinct(w.queue, w.inflight, eligible, sizeOf, keyOf);
    var (batch, left) := NextBatch(w.queue, w.inflight, eligible, sizeOf, keyOf);
    TailDistinct(batch, left);
    AddHolder(w, left, Domains(batch));
  }

  lemma TailDistinct(a: seq<Request>, b: seq<Request>)
    requires Distinct(a + b)
    ensures Distinct(b)
  {
    var both := a + b;
    forall i, j | 0 <= i < j < |b| ensures b[i].domain != b[j].domain {
      assert both[|a| + i] == b[i] && both[|a| + j] == b[j];
    }
  }

  lemma TopUpStep(w: World, service: string, n: nat, eligible: string -> bool)
    requires Inv(w)
    ensures Inv(Step(w, TopUp(service, n, eligible)))
  {
    var want := PendingFor(service, w.inflight, eligible);
    SelectLaw(w.queue, want, n);
    var (taken, left) := Select(w.queue, want, n);
    SelectKeepsDistinct(w.queue, taken, left);
    AddHolder(w, left, Domains(taken));
  }

  lemma FinishStep(w: World, holder: nat, names: set<string>)
    requires Inv(w) && Enabled(w, Finish(holder, names))
    ensures Inv(Step(w, Finish(holder, names)))
  {
    var after := Step(w, Finish(holder, names)).holders;
    forall d ensures d in AllNames(after) <==> d in w.inflight - names {
      if d in w.inflight - names {
        var i :| 0 <= i < |w.holders| && d in w.holders[i].names;
        assert d in after[i].names;
      }
      if d in AllNames(after) {
        var i :| 0 <= i < |after| && d in after[i].names;
        assert d in w.holders[i].names;
      }
    }
    assert forall i :: 0 <= i < |after| ==> Wildcards(after[i]) == Wildcards(w.holders[i]);
  }

  lemma UnclaimStep(w: World, order: nat)
    requires Inv(w) && Enabled(w, Unclaim(order))
    ensures Inv(Step(w, Unclaim(order)))
  {
    var next := Step(w, Unclaim(order));
    var after := next.holders;
    assert forall i :: 0 <= i < |after| ==> after[i].names == w.holders[i].names;
    assert forall i :: 0 <= i < |after| && i != order ==> Wildcards(after[i]) == Wildcards(w.holders[i]);
    assert Wildcards(after[order]) == {};
    forall i | 0 <= i < |after| ensures Wildcards(after[i]) <= next.busy {
      if i != order {
        assert Wildcards(w.holders[i]) !! Wildcards(w.holders[order]);
      }
    }
    forall x | x in next.busy && IsWildcard(x) ensures exists i :: 0 <= i < |after| && x in Wildcards(after[i]) {
      var i :| 0 <= i < |w.holders| && x in Wildcards(w.holders[i]);
      assert i != order;
      assert x in Wildcards(after[i]);
    }
  }

  /** Two orders of one plan share no identifier at all, when the split repeats none. */
  lemma {:induction false} PlannedApart(requests: seq<Request>, identifierOf: Request -> string, partitions: seq<seq<string>>, busy: set<string>, k: nat, l: nat, x: string)
    requires NoneTwice(Flatten(partitions))
    requires k < l < |PlanOrders(requests, identifierOf, partitions, busy).orders|
    ensures var orders := PlanOrders(requests, identifierOf, partitions, busy).orders;
            !(x in orders[k].identifiers && x in orders[l].identifiers)
  {
    var front, partition := partitions[..|partitions| - 1], partitions[|partitions| - 1];
    FlatNoneTwice(Flatten(front), partition);
    var before := PlanOrders(requests, identifierOf, front, busy);
    FreeFacts(partition, before.busy);
    if l < |before.orders| {
      PlannedApart(requests, identifierOf, front, busy, k, l, x);
    } else if x in before.orders[k].identifiers {
      PlannedOrder(requests, identifierOf, front, busy, k);
    }
  }

  lemma {:induction false} RequestsOfMember(orders: seq<Order>, r: Request)
    ensures r in RequestsOf(orders) <==> exists k :: 0 <= k < |orders| && r in orders[k].requests
  {
    if orders != [] {
      var front := orders[..|orders| - 1];
      RequestsOfMember(front, r);
      if r in RequestsOf(front) {
        var k :| 0 <= k < |front| && r in front[k].requests;
        assert r in orders[k].requests;
      } else if r in orders[|orders| - 1].requests {
        assert r in orders[|front|].requests;
      }
      if k :| 0 <= k < |orders| && r in orders[k].requests {
        if k < |front| { assert r in front[k].requests; }
      }
    }
  }

  lemma SameRequest(requests: seq<Request>, r: Request, s: Request)
    requires Distinct(requests) && r in requests && s in requests && r.domain == s.domain
    ensures r == s
  {
  }

  lemma OrderNames(w: World, a: Action, k: nat, r: Request)
    requires a.Claim? && Enabled(w, a)
    requires var orders := PlanOrders(a.requested, a.identifierOf, a.partitions, w.busy).orders; k < |orders| && r in orders[k].requests
    ensures r in a.requested
            && a.identifierOf(r) in PlanOrders(a.requested, a.identifierOf, a.partitions, w.busy).orders[k].identifiers
  {
    PlannedOrder(a.requested, a.identifierOf, a.partitions, w.busy, k);
  }

  /** Two orders of a plan share no name and no wildcard. */
  lemma OrdersApart(w: World, a: Action, k: nat, l: nat)
    requires a.Claim? && Enabled(w, a) && k < l < |PlanOrders(a.requested, a.identifierOf, a.partitions, w.busy).orders|
    ensures var held := OrderHolders(PlanOrders(a.requested, a.identifierOf, a.partitions, w.busy).orders);
            held[k].names !! held[l].names && Wildcards(held[k]) !! Wildcards(held[l])
  {
    var orders := PlanOrders(a.requested, a.identifierOf, a.partitions, w.busy).orders;
    var held := OrderHolders(orders);
    forall d | d in held[k].names && d in held[l].names ensures false {
      var r :| r in orders[k].requests && r.domain == d;
      var s :| s in orders[l].requests && s.domain == d;
      OrderNames(w, a, k, r);
      OrderNames(w, a, l, s);
      SameRequest(a.requested, r, s);
      PlannedApart(a.requested, a.identifierOf, a.partitions, w.busy, k, l, a.identifierOf(r));
    }
    forall x | x in Wildcards(held[k]) && x in Wildcards(held[l]) ensures false {
      PlannedWildcardsApart(a.requested, a.identifierOf, a.partitions, w.busy, k, l, x);
    }
  }

  lemma OrdersHoldRequests(orders: seq<Order>)
    ensures AllNames(OrderHolders(orders)) == Domains(RequestsOf(orders))
  {
    var held := OrderHolders(orders);
    forall d ensures d in AllNames(held) <==> d in Domains(RequestsOf(orders)) {
      if d in AllNames(held) {
        var k :| 0 <= k < |held| && d in held[k].names;
        var r :| r in orders[k].requests && r.domain == d;
        RequestsOfMember(orders, r);
      }
      if d in Domains(RequestsOf(orders)) {
        var r :| r in RequestsOf(orders) && r.domain == d;
        RequestsOfMember(orders, r);
        var k :| 0 <= k < |orders| && r in orders[k].requests;
        assert d in held[k].names;
      }
    }
  }

  /** The names of a plan's orders are disjoint and are the planned requests' names. */
  lemma PlannedNames(w: World, a: Action)
    requires a.Claim? && Enabled(w, a)
    ensures var orders := PlanOrders(a.requested, a.identifierOf, a.partitions, w.busy).orders;
            var held := OrderHolders(orders);
            && NamesApart(held) && WildcardsApart(held)
            && AllNames(held) == Domains(RequestsOf(orders))
            && AllNames(held) <= Domains(a.requested)
  {
    var orders := PlanOrders(a.requested, a.identifierOf, a.partitions, w.busy).orders;
    var held := OrderHolders(orders);
    forall k, l | 0 <= k < l < |held|
      ensures held[k].names !! held[l].names && Wildcards(held[k]) !! Wildcards(held[l])
    {
      OrdersApart(w, a, k, l);
    }
    OrdersHoldRequests(orders);
    forall d | d in AllNames(held) ensures d in Domains(a.requested) {
      var k :| 0 <= k < |held| && d in held[k].names;
      var r :| r in orders[k].requests && r.domain == d;
      OrderNames(w, a, k, r);
    }
  }

  function HandedOver(holders: seq<Holder>, at: nat, held: seq<Holder>): seq<Holder>
    requires at < |holders|
  {
    holders[at := Holder(holders[at].names - AllNames(held), {})] + held
  }

  /** Handing part of one holder's names to new holders leaves no name held twice. */
  lemma HandOverApart(holders: seq<Holder>, at: nat, held: seq<Holder>)
    requires at < |holders| && NamesApart(holders) && NamesApart(held) && AllNames(held) <= holders[at].names
    ensures NamesApart(HandedOver(holders, at, held))
  {
    var after := HandedOver(holders, at, held);
    var n := |holders|;
    forall k | 0 <= k < |held|
      ensures after[n + k] == held[k] && held[k].names <= AllNames(held) && held[k].names !! after[at].names
    {
    }
    forall i, j | 0 <= i < j < |after| ensures after[i].names !! after[j].names {
      if i < n && j >= n {
        assert after[j] == held[j - n];
        if i != at {
          assert after[i] == holders[i];
          assert holders[i].names !! holders[at].names;
        }
      } else if i >= n {
        assert after[i] == held[i - n] && after[j] == held[j - n];
      } else {
        assert after[i].names <= holders[i].names && after[j].names <= holders[j].names;
      }
    }
  }

  /** And loses none. */
  lemma HandOverKeeps(holders: seq<Holder>, at: nat, held: seq<Holder>)
    requires at < |holders| && AllNames(held) <= holders[at].names
    ensures AllNames(HandedOver(holders, at, held)) == AllNames(holders)
  {
    var after := HandedOver(holders, at, held);
    var n := |holders|;
    forall d | d in AllNames(holders) ensures d in AllNames(after) {
      var i :| 0 <= i < |holders| && d in holders[i].names;
      if d in AllNames(held) {
        var k :| 0 <= k < |held| && d in held[k].names;
        assert after[n + k] == held[k];
        assert d in after[n + k].names;
      } else {
        assert d in after[i].names;
      }
    }
    forall d | d in AllNames(after) ensures d in AllNames(holders) {
      var i :| 0 <= i < |after| && d in after[i].names;
      if i >= n {
        assert d in held[i - n].names;
        assert d in AllNames(held);
        assert d in holders[at].names;
      } else {
        assert d in holders[i].names;
      }
    }
  }

  /** After a claim: the old holders' wildcards as they were, and new ones that nothing held. */
  lemma ClaimedWildcards(w: World, a: Action, i: nat)
    requires Inv(w) && a.Claim? && Enabled(w, a) && i < |Step(w, a).holders|
    ensures var next := Step(w, a);
            && Wildcards(next.holders[i]) <= next.busy
            && (i < |w.holders| ==> Wildcards(next.holders[i]) == Wildcards(w.holders[i]) && Wildcards(next.holders[i]) <= w.busy)
            && (i >= |w.holders| ==> Wildcards(next.holders[i]) !! w.busy)
  {
    var n := |w.holders|;
    assert Wildcards(w.holders[a.batch]) == {};
    PlanBusy(a.requested, a.identifierOf, a.partitions, w.busy);
    if i >= n {
      PlannedOrder(a.requested, a.identifierOf, a.partitions, w.busy, i - n);
      assert Step(w, a).holders[i] == OrderHolders(PlanOrders(a.requested, a.identifierOf, a.partitions, w.busy).orders)[i - n];
    }
  }

  lemma ClaimKeepsApart(w: World, a: Action)
    requires Inv(w) && a.Claim? && Enabled(w, a)
    ensures WildcardsApart(Step(w, a).holders)
  {
    var next := Step(w, a);
    var n := |w.holders|;
    var held := OrderHolders(PlanOrders(a.requested, a.identifierOf, a.partitions, w.busy).orders);
    PlannedNames(w, a);
    forall i, j | 0 <= i < j < |next.holders| ensures Wildcards(next.holders[i]) !! Wildcards(next.holders[j]) {
      ClaimedWildcards(w, a, i);
      ClaimedWildcards(w, a, j);
      if i >= n {
        assert next.holders[i] == held[i - n] && next.holders[j] == held[j - n];
      }
    }
  }

  lemma ClaimKeepsTrack(w: World, a: Action, x: string)
    requires Inv(w) && a.Claim? && Enabled(w, a) && x in Step(w, a).busy && IsWildcard(x)
    ensures exists i :: 0 <= i < |Step(w, a).holders| && x in Wildcards(Step(w, a).holders[i])
  {
    var plan := PlanOrders(a.requested, a.identifierOf, a.partitions, w.busy);
    var next := Step(w, a);
    var n := |w.holders|;
    PlanBusy(a.requested, a.identifierOf, a.partitions, w.busy);
    if x in w.busy {
      var i :| 0 <= i < n && x in Wildcards(w.holders[i]);
      ClaimedWildcards(w, a, i);
      assert x in Wildcards(next.holders[i]);
    } else {
      var k :| 0 <= k < |plan.orders| && x in plan.orders[k].identifiers;
      assert next.holders[n + k] == OrderHolders(plan.orders)[k];
      assert x in Wildcards(next.holders[n + k]);
    }
  }

  lemma ClaimWildcards(w: World, a: Action)
    requires Inv(w) && a.Claim? && Enabled(w, a)
    ensures var next := Step(w, a); WildcardsApart(next.holders) && WildcardsTracked(next.busy, next.holders)
  {
    ClaimKeepsApart(w, a);
    forall i | 0 <= i < |Step(w, a).holders| ensures Wildcards(Step(w, a).holders[i]) <= Step(w, a).busy {
      ClaimedWildcards(w, a, i);
    }
    forall x | x in Step(w, a).busy && IsWildcard(x)
      ensures exists i :: 0 <= i < |Step(w, a).holders| && x in Wildcards(Step(w, a).holders[i])
    {
      ClaimKeepsTrack(w, a, x);
    }
  }

  lemma ClaimStep(w: World, a: Action)
    requires Inv(w) && a.Claim? && Enabled(w, a)
    ensures Inv(Step(w, a))
  {
    PlannedNames(w, a);
    ClaimWildcards(w, a);
    var plan := PlanOrders(a.requested, a.identifierOf, a.partitions, w.busy);
    HandOverApart(w.holders, a.batch, OrderHolders(plan.orders));
    HandOverKeeps(w.holders, a.batch, OrderHolders(plan.orders));
    assert Step(w, a).holders == HandedOver(w.holders, a.batch, OrderHolders(plan.orders));
  }

  lemma StepKeeps(w: World, a: Action)
    requires Inv(w) && Enabled(w, a)
    ensures Inv(Step(w, a))
  {
    match a
    case Ask(domain, service, quarantined) =>
      if domain !in Domains(w.queue) { AppendDistinct(w.queue, Request(domain, service, false)); }
    case Pop(eligible, sizeOf, keyOf) => PopStep(w, eligible, sizeOf, keyOf);
    case TopUp(service, n, eligible) => TopUpStep(w, service, n, eligible);
    case Claim(_, _, _, _) => ClaimStep(w, a);
    case Finish(holder, names) => FinishStep(w, holder, names);
    case Unclaim(order) => UnclaimStep(w, order);
    case Return(survivors) => RequeuedLaw(w.queue, survivors);
  }

  ghost predicate IsRun(run: seq<World>, actions: seq<Action>) {
    && |run| == |actions| + 1 && run[0] == Start
    && forall i :: 0 <= i < |actions| ==> Enabled(run[i], actions[i]) && run[i + 1] == Step(run[i], actions[i])
  }

  /**
   * At every point of every interleaving: the queue repeats no name, the names in
   * flight are the disjoint union of what live batches, orders and top-ups hold,
   * and no wildcard is in two live orders.
   */
  lemma {:induction false} RunKeeps(run: seq<World>, actions: seq<Action>, at: nat)
    requires IsRun(run, actions) && at < |run|
    ensures Inv(run[at])
  {
    if at > 0 {
      RunKeeps(run, actions, at - 1);
      StepKeeps(run[at - 1], actions[at - 1]);
    }
  }
}
