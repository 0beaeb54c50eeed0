/**
 * The dynamic issuer's shared book-keeping: the queue of requests, the names in
 * flight and the identifiers being ordered. Each method is one hold of the
 * issuer's lock, proved against a function on sequences and sets.
 */
module Issuer {
  import opened Text
  import opened Names
  import opened Grouping

  datatype Request = Request(domain: string, service: string, retried: bool)

  /** One ACME order: the identifiers to order and the requests they answer for. */
  datatype Order = Order(identifiers: seq<string>, requests: seq<Request>)

  const MAX_BATCH: nat := 25

  function Domains(requests: seq<Request>): set<string> {
    set r | r in requests :: r.domain
  }

  /** No name twice. */
  ghost predicate Distinct(requests: seq<Request>) {
    forall i, j :: 0 <= i < j < |requests| ==> requests[i].domain != requests[j].domain
  }

  function BatchSizeFor(configured: Option<int>): (size: nat)
    ensures size == 25 || (size == 1 && (configured.None? || configured.value <= 0)) || configured == Some(size)
    ensures size == 25 ==> configured.Some? && configured.value >= 25
    ensures 1 <= size <= 25
  {
    match configured
    case None => 1
    case Some(size) => if size <= 0 then 1 else if size < MAX_BATCH then size else MAX_BATCH
  }

  // ---- Picking requests off a queue ----

  /** The first `n` wanted requests in queue order, and everything else. */
  function Select(queue: seq<Request>, want: Request -> bool, n: nat): (seq<Request>, seq<Request>) {
    if queue == [] then ([], []) else
      var (taken, left) := Select(queue[..|queue| - 1], want, n);
      var last := queue[|queue| - 1];
      if |taken| < n && want(last) then (taken + [last], left) else (taken, left + [last])
  }

  lemma {:induction false} SelectLaw(queue: seq<Request>, want: Request -> bool, n: nat)
    ensures var (taken, left) := Select(queue, want, n);
            && multiset(queue) == multiset(taken) + multiset(left)
            && |taken| <= n
            && (forall r :: r in taken ==> want(r))
            && (|taken| < n ==> forall r :: r in left ==> !want(r))
  {
    if queue != [] {
      var front, last := queue[..|queue| - 1], queue[|queue| - 1];
      SelectLaw(front, want, n);
      assert queue == front + [last];
      var (taken, left) := Select(front, want, n);
      assert multiset(queue) == multiset(front) + multiset{last};
      assert multiset(taken + [last]) == multiset(taken) + multiset{last} && multiset(left + [last]) == multiset(left) + multiset{last};
    }
  }

  /** Up to a point of the queue all the wanted are taken, after it none; and the rest stay in order. */
  ghost predicate TakenUpTo(queue: seq<Request>, want: Request -> bool, point: nat, taken: seq<Request>, left: seq<Request>)
    requires point <= |queue|
  {
    taken == Members(queue[..point], want, true) && left == Members(queue[..point], want, false) + queue[point..]
  }

  lemma TakesMore(queue: seq<Request>, want: Request -> bool, last: Request, taken: seq<Request>, left: seq<Request>)
    requires TakenUpTo(queue, want, |queue|, taken, left)
    ensures if want(last) then TakenUpTo(queue + [last], want, |queue| + 1, taken + [last], left)
            else TakenUpTo(queue + [last], want, |queue| + 1, taken, left + [last])
  {
    var all := queue + [last];
    assert queue[..|queue|] == queue && queue[|queue|..] == [];
    assert all[..|all|] == all && all[|all|..] == [] && all[..|all| - 1] == queue;
  }

  lemma TakesNoMore(queue: seq<Request>, want: Request -> bool, last: Request, point: nat, taken: seq<Request>, left: seq<Request>)
    requires point <= |queue| && TakenUpTo(queue, want, point, taken, left)
    ensures TakenUpTo(queue + [last], want, point, taken, left + [last])
  {
    assert (queue + [last])[..point] == queue[..point] && (queue + [last])[point..] == queue[point..] + [last];
  }

  /** The wanted are taken in queue order until there are enough or no more. */
  lemma {:induction false} SelectsFirst(queue: seq<Request>, want: Request -> bool, n: nat) returns (point: nat)
    ensures point <= |queue|
    ensures var (taken, left) := Select(queue, want, n);
            TakenUpTo(queue, want, point, taken, left) && (|taken| == n || point == |queue|)
  {
    point := 0;
    if queue != [] {
      var front, last := queue[..|queue| - 1], queue[|queue| - 1];
      assert queue == front + [last];
      SelectLaw(front, want, n);
      var (taken, left) := Select(front, want, n);
      point := SelectsFirst(front, want, n);
      if |taken| < n {
        TakesMore(front, want, last, taken, left);
        point := |queue|;
      } else {
        TakesNoMore(front, want, last, point, taken, left);
      }
    }
  }

  predicate Issuable(inflight: set<string>, eligible: string -> bool, domain: string) {
    domain !in inflight && eligible(domain)
  }

  /** What the head of a batch accepts beside it: its service, its provider, and issuable. */
  function Joins(head: Request, inflight: set<string>, eligible: string -> bool, keyOf: string -> string): Request -> bool {
    (r: Request) => r.service == head.service && Issuable(inflight, eligible, r.domain) && keyOf(r.domain) == keyOf(head.domain)
  }

  /** The next batch and the queue it leaves; unissuable heads are dropped on the way. */
  function NextBatch(queue: seq<Request>, inflight: set<string>, eligible: string -> bool, sizeOf: string -> nat, keyOf: string -> string): (seq<Request>, seq<Request>)
  {
    if queue == [] then ([], [])
    else if !Issuable(inflight, eligible, queue[0].domain) then NextBatch(queue[1..], inflight, eligible, sizeOf, keyOf)
    else
      var size := sizeOf(queue[0].service);
      var (taken, left) := Select(queue[1..], Joins(queue[0], inflight, eligible, keyOf), if size == 0 then 0 else size - 1);
      ([queue[0]] + taken, left)
  }

  /** A batch is one service's, one provider's, issuable, no larger than configured, and empty only if nothing is issuable. */
  lemma {:induction false} NextBatchLaw(queue: seq<Request>, inflight: set<string>, eligible: string -> bool, sizeOf: string -> nat, keyOf: string -> string)
    ensures var (batch, left) := NextBatch(queue, inflight, eligible, sizeOf, keyOf);
            && (forall r :: r in batch ==> r in queue && Issuable(inflight, eligible, r.domain))
            && (forall r, s :: r in batch && s in batch ==> r.service == s.service && keyOf(r.domain) == keyOf(s.domain))
            && (forall r :: r in queue && Issuable(inflight, eligible, r.domain) ==> r in batch || r in left)
            && (forall r :: r in left ==> r in queue)
            && (batch == [] <==> forall r :: r in queue ==> !Issuable(inflight, eligible, r.domain))
            && (batch == [] ==> left == [])
            && (batch != [] ==> |batch| == 1 || |batch| <= sizeOf(batch[0].service))
  {
    if queue != [] {
      var head, rest := queue[0], queue[1..];
      assert queue == [head] + rest;
      if !Issuable(inflight, eligible, head.domain) {
        NextBatchLaw(rest, inflight, eligible, sizeOf, keyOf);
      } else {
        var want := Joins(head, inflight, eligible, keyOf);
        var n := if sizeOf(head.service) == 0 then 0 else sizeOf(head.service) - 1;
        SelectLaw(rest, want, n);
        var (taken, left) := Select(rest, want, n);
        SplitMembers(rest, taken, left);
        assert head in queue;
      }
    }
  }

  /** The first request nothing stands against, or the end of the queue. */
  function FirstIssuable(queue: seq<Request>, inflight: set<string>, eligible: string -> bool): (i: nat)
    ensures i <= |queue| && (i < |queue| ==> Issuable(inflight, eligible, queue[i].domain))
    ensures forall j :: 0 <= j < i ==> !Issuable(inflight, eligible, queue[j].domain)
  {
    if queue == [] || Issuable(inflight, eligible, queue[0].domain) then 0 else 1 + FirstIssuable(queue[1..], inflight, eligible)
  }

  lemma {:induction false} SkipsUnissuable(queue: seq<Request>, inflight: set<string>, eligible: string -> bool, sizeOf: string -> nat, keyOf: string -> string)
    ensures NextBatch(queue, inflight, eligible, sizeOf, keyOf)
         == NextBatch(queue[FirstIssuable(queue, inflight, eligible)..], inflight, eligible, sizeOf, keyOf)
  {
    if queue != [] && !Issuable(inflight, eligible, queue[0].domain) {
      SkipsUnissuable(queue[1..], inflight, eligible, sizeOf, keyOf);
      var i := FirstIssuable(queue[1..], inflight, eligible);
      assert queue[1..][i..] == queue[i + 1..];
    } else {
      assert queue[0..] == queue;
    }
  }

  /** A batch from the head of a queue on, losing nothing, and as large as configured unless nobody left may join. */
  ghost predicate FullBatch(queue: seq<Request>, batch: seq<Request>, left: seq<Request>, inflight: set<string>, eligible: string -> bool, size: nat, keyOf: string -> string)
    requires queue != []
  {
    && batch != [] && batch[0] == queue[0] && multiset(batch) + multiset(left) == multiset(queue)
    && (|batch| >= size ||
        forall r :: r in left ==> !(r.service == queue[0].service && r.domain !in inflight && eligible(r.domain) && keyOf(r.domain) == keyOf(queue[0].domain)))
  }

  lemma JoinsAll(queue: seq<Request>, inflight: set<string>, eligible: string -> bool, size: nat, keyOf: string -> string, taken: seq<Request>, left: seq<Request>)
    requires queue != [] && (taken, left) == Select(queue[1..], Joins(queue[0], inflight, eligible, keyOf), if size == 0 then 0 else size - 1)
    ensures FullBatch(queue, [queue[0]] + taken, left, inflight, eligible, size, keyOf)
  {
    var head, rest := queue[0], queue[1..];
    SelectLaw(rest, Joins(head, inflight, eligible, keyOf), if size == 0 then 0 else size - 1);
    assert queue == [head] + rest;
    assert multiset([head] + taken) == multiset{head} + multiset(taken) && multiset(queue) == multiset{head} + multiset(rest);
  }

  lemma HeadBatch(queue: seq<Request>, inflight: set<string>, eligible: string -> bool, sizeOf: string -> nat, keyOf: string -> string)
    returns (taken: seq<Request>, left: seq<Request>)
    requires queue != [] && Issuable(inflight, eligible, queue[0].domain)
    ensures var size := sizeOf(queue[0].service);
            (taken, left) == Select(queue[1..], Joins(queue[0], inflight, eligible, keyOf), if size == 0 then 0 else size - 1)
    ensures NextBatch(queue, inflight, eligible, sizeOf, keyOf) == ([queue[0]] + taken, left)
  {
    var size := sizeOf(queue[0].service);
    var (t, l) := Select(queue[1..], Joins(queue[0], inflight, eligible, keyOf), if size == 0 then 0 else size - 1);
    taken, left := t, l;
  }

  lemma BatchAtHead(queue: seq<Request>, inflight: set<string>, eligible: string -> bool, sizeOf: string -> nat, keyOf: string -> string)
    returns (batch: seq<Request>, left: seq<Request>)
    requires queue != [] && Issuable(inflight, eligible, queue[0].domain)
    ensures NextBatch(queue, inflight, eligible, sizeOf, keyOf) == (batch, left)
    ensures FullBatch(queue, batch, left, inflight, eligible, sizeOf(queue[0].service), keyOf)
  {
    var taken, rest := HeadBatch(queue, inflight, eligible, sizeOf, keyOf);
    JoinsAll(queue, inflight, eligible, sizeOf(queue[0].service), keyOf, taken, rest);
    batch, left := [queue[0]] + taken, rest;
  }

  /** The batch starts at the first issuable request; what is before it is dropped and nothing else; and it is full. */
  lemma NextBatchTakesAll(queue: seq<Request>, inflight: set<string>, eligible: string -> bool, sizeOf: string -> nat, keyOf: string -> string)
    ensures var (batch, left) := NextBatch(queue, inflight, eligible, sizeOf, keyOf);
            var i := FirstIssuable(queue, inflight, eligible);
            if i == |queue| then batch == [] && left == []
            else FullBatch(queue[i..], batch, left, inflight, eligible, sizeOf(queue[i].service), keyOf)
  {
    var i := FirstIssuable(queue, inflight, eligible);
    SkipsUnissuable(queue, inflight, eligible, sizeOf, keyOf);
    if i < |queue| {
      assert queue[i..][0] == queue[i];
      var batch, left := BatchAtHead(queue[i..], inflight, eligible, sizeOf, keyOf);
    }
  }

  /** And no name is in both the batch and what it leaves. */
  lemma {:induction false} NextBatchDistinct(queue: seq<Request>, inflight: set<string>, eligible: string -> bool, sizeOf: string -> nat, keyOf: string -> string)
    requires Distinct(queue)
    ensures var (batch, left) := NextBatch(queue, inflight, eligible, sizeOf, keyOf);
            Distinct(batch + left)
  {
    if queue != [] {
      var head, rest := queue[0], queue[1..];
      PopHead(queue);
      if !Issuable(inflight, eligible, head.domain) {
        NextBatchDistinct(rest, inflight, eligible, sizeOf, keyOf);
      } else {
        var want := Joins(head, inflight, eligible, keyOf);
        var n := if sizeOf(head.service) == 0 then 0 else sizeOf(head.service) - 1;
        SelectLaw(rest, want, n);
        var (taken, left) := Select(rest, want, n);
        SplitMembers(rest, taken, left);
        SplitDistinct(rest, taken, left);
        ConsDistinct(head, taken + left);
        assert [head] + taken + left == [head] + (taken + left);
      }
    }
  }

  lemma SplitMembers(queue: seq<Request>, a: seq<Request>, b: seq<Request>)
    requires multiset(queue) == multiset(a) + multiset(b)
    ensures forall r :: r in queue <==> r in a || r in b
    ensures forall r :: r in queue <==> r in a + b
  {
    forall r ensures r in queue <==> r in a || r in b {
      assert r in queue <==> r in multiset(queue);
      assert r in a <==> r in multiset(a);
      assert r in b <==> r in multiset(b);
    }
  }

  /** Distinctness is about how often a name occurs, so any rearrangement keeps it. */
  lemma SplitDistinct(queue: seq<Request>, a: seq<Request>, b: seq<Request>)
    requires Distinct(queue) && multiset(queue) == multiset(a) + multiset(b)
    ensures Distinct(a + b)
  {
    var c := a + b;
    assert multiset(c) == multiset(queue);
    forall i, j | 0 <= i < j < |c| ensures c[i].domain != c[j].domain {
      if c[i].domain == c[j].domain {
        TwiceInMultiset(c, i, j);
        assert c[i] in multiset(queue) && c[j] in multiset(queue);
        var k :| 0 <= k < |queue| && queue[k] == c[i];
        var l :| 0 <= l < |queue| && queue[l] == c[j];
        OnceInMultiset(queue, k);
      }
    }
  }

  lemma TwiceInMultiset(c: seq<Request>, i: nat, j: nat)
    requires i < j < |c|
    ensures c[i] == c[j] ==> multiset(c)[c[i]] >= 2
  {
    assert c == c[..j] + [c[j]] + c[j + 1..];
    assert c[i] in c[..j];
    assert c[i] in multiset(c[..j]);
  }

  lemma OnceInMultiset(queue: seq<Request>, k: nat)
    requires Distinct(queue) && k < |queue|
    ensures multiset(queue)[queue[k]] == 1
  {
    var before, after := queue[..k], queue[k + 1..];
    assert queue == before + [queue[k]] + after;
    assert queue[k] !in before && queue[k] !in after;
    assert multiset(before)[queue[k]] == 0 && multiset(after)[queue[k]] == 0;
  }

  // ---- Planning orders ----

  /** The identifiers of a partition no live wildcard order already covers. */
  function FreeIdentifiers(partition: seq<string>, busy: set<string>): seq<string> {
    if partition == [] then [] else
      var before := FreeIdentifiers(partition[..|partition| - 1], busy);
      var identifier := partition[|partition| - 1];
      if identifier in busy && IsWildcard(identifier) then before else before + [identifier]
  }

  /** The requests planned into one of the given identifiers. */
  function PlannedInto(requests: seq<Request>, identifierOf: Request -> string, identifiers: seq<string>): seq<Request> {
    if requests == [] then [] else
      var before := PlannedInto(requests[..|requests| - 1], identifierOf, identifiers);
      var request := requests[|requests| - 1];
      if identifierOf(request) in identifiers then before + [request] else before
  }

  /** The requests of a partition whose identifier was left out of its order. */
  function LeftOut(requests: seq<Request>, identifierOf: Request -> string, identifiers: seq<string>, partition: seq<string>): seq<Request> {
    if requests == [] then [] else
      var before := LeftOut(requests[..|requests| - 1], identifierOf, identifiers, partition);
      var request := requests[|requests| - 1];
      if identifierOf(request) !in identifiers && identifierOf(request) in partition then before + [request] else before
  }

  datatype Plan = Plan(orders: seq<Order>, dropped: seq<Request>, busy: set<string>)

  function Elements(items: seq<string>): set<string> {
    set x | x in items
  }

  /** One order per partition that still has something to order. */
  function PlanOrders(requests: seq<Request>, identifierOf: Request -> string, partitions: seq<seq<string>>, busy: set<string>): Plan {
    if partitions == [] then Plan([], [], busy) else
      var before := PlanOrders(requests, identifierOf, partitions[..|partitions| - 1], busy);
      PlanPartition(requests, identifierOf, partitions[|partitions| - 1], before)
  }

  function PlanPartition(requests: seq<Request>, identifierOf: Request -> string, partition: seq<string>, before: Plan): Plan {
    var free := FreeIdentifiers(partition, before.busy);
    var dropped := before.dropped + LeftOut(requests, identifierOf, free, partition);
    if free == [] then before.(dropped := dropped)
    else Plan(before.orders + [Order(free, PlannedInto(requests, identifierOf, free))], dropped, before.busy + Elements(free))
  }

  function RequestsOf(orders: seq<Order>): seq<Request> {
    if orders == [] then [] else RequestsOf(orders[..|orders| - 1]) + orders[|orders| - 1].requests
  }

  lemma {:induction false} FreeFacts(partition: seq<string>, busy: set<string>)
    ensures var free := FreeIdentifiers(partition, busy);
            forall x :: x in free <==> x in partition && !(x in busy && IsWildcard(x))
  {
    if partition != [] {
      FreeFacts(partition[..|partition| - 1], busy);
      assert partition == partition[..|partition| - 1] + [partition[|partition| - 1]];
    }
  }

  lemma {:induction false} PlannedFacts(requests: seq<Request>, identifierOf: Request -> string, identifiers: seq<string>)
    ensures forall r :: r in PlannedInto(requests, identifierOf, identifiers) <==> r in requests && identifierOf(r) in identifiers
  {
    if requests != [] {
      PlannedFacts(requests[..|requests| - 1], identifierOf, identifiers);
      assert requests == requests[..|requests| - 1] + [requests[|requests| - 1]];
    }
  }

  /** One partition's requests are ordered or dropped, never both and none twice. */
  lemma {:induction false} PartitionSplits(requests: seq<Request>, identifierOf: Request -> string, identifiers: seq<string>, partition: seq<string>)
    requires forall x :: x in identifiers ==> x in partition
    ensures multiset(PlannedInto(requests, identifierOf, identifiers)) + multiset(LeftOut(requests, identifierOf, identifiers, partition))
         == multiset(PlannedInto(requests, identifierOf, partition))
  {
    if requests != [] {
      PartitionSplits(requests[..|requests| - 1], identifierOf, identifiers, partition);
    }
  }

  lemma {:induction false} PlannedAppend(requests: seq<Request>, identifierOf: Request -> string, a: seq<string>, b: seq<string>)
    requires forall x :: x in a ==> x !in b
    ensures multiset(PlannedInto(requests, identifierOf, a + b))
         == multiset(PlannedInto(requests, identifierOf, a)) + multiset(PlannedInto(requests, identifierOf, b))
  {
    if requests != [] {
      PlannedAppend(requests[..|requests| - 1], identifierOf, a, b);
    }
  }

  lemma {:induction false} PlannedNone(requests: seq<Request>, identifierOf: Request -> string)
    ensures PlannedInto(requests, identifierOf, []) == []
  {
    if requests != [] {
      PlannedNone(requests[..|requests| - 1], identifierOf);
    }
  }

  lemma {:induction false} PlannedAll(requests: seq<Request>, identifierOf: Request -> string, identifiers: seq<string>)
    requires forall r :: r in requests ==> identifierOf(r) in identifiers
    ensures PlannedInto(requests, identifierOf, identifiers) == requests
  {
    if requests != [] {
      var front := requests[..|requests| - 1];
      assert requests == front + [requests[|requests| - 1]];
      assert forall r :: r in front ==> r in requests;
      PlannedAll(front, identifierOf, identifiers);
    }
  }

  ghost predicate NoneTwice(items: seq<string>) {
    forall i, j :: 0 <= i < j < |items| ==> items[i] != items[j]
  }

  lemma {:induction false} PlanConserves(requests: seq<Request>, identifierOf: Request -> string, partitions: seq<seq<string>>, busy: set<string>)
    requires NoneTwice(Flatten(partitions))
    ensures var plan := PlanOrders(requests, identifierOf, partitions, busy);
            multiset(RequestsOf(plan.orders)) + multiset(plan.dropped)
            == multiset(PlannedInto(requests, identifierOf, Flatten(partitions)))
  {
    if partitions == [] {
      PlannedNone(requests, identifierOf);
    } else {
      var front, partition := partitions[..|partitions| - 1], partitions[|partitions| - 1];
      var flat := Flatten(front);
      FlatNoneTwice(flat, partition);
      PlanConserves(requests, identifierOf, front, busy);
      var before := PlanOrders(requests, identifierOf, front, busy);
      var free := FreeIdentifiers(partition, before.busy);
      FreeFacts(partition, before.busy);
      PartitionSplits(requests, identifierOf, free, partition);
      PlannedAppend(requests, identifierOf, flat, partition);
      if free == [] {
        PlannedNone(requests, identifierOf);
      } else {
        var order := Order(free, PlannedInto(requests, identifierOf, free));
        assert (before.orders + [order])[..|before.orders|] == before.orders;
      }
    }
  }

  lemma FlatNoneTwice(flat: seq<string>, partition: seq<string>)
    requires NoneTwice(flat + partition)
    ensures NoneTwice(flat) && forall x :: x in flat ==> x !in partition
  {
    var all := flat + partition;
    forall i, j | 0 <= i < j < |flat| ensures flat[i] != flat[j] {
      assert all[i] == flat[i] && all[j] == flat[j];
    }
    forall i, j | 0 <= i < |flat| && 0 <= j < |partition| ensures flat[i] != partition[j] {
      assert all[i] == flat[i] && all[|flat| + j] == partition[j];
    }
  }

  /**
   * Whatever permutation the split made of the planned identifiers, every request
   * of the batch ends in exactly one order or is dropped exactly once.
   */
  lemma PlanPartitionsRequests(requests: seq<Request>, identifierOf: Request -> string, partitions: seq<seq<string>>, busy: set<string>)
    requires NoneTwice(Flatten(partitions))
    requires forall r :: r in requests ==> identifierOf(r) in Flatten(partitions)
    ensures var plan := PlanOrders(requests, identifierOf, partitions, busy);
            multiset(RequestsOf(plan.orders)) + multiset(plan.dropped) == multiset(requests)
  {
    PlanConserves(requests, identifierOf, partitions, busy);
    PlannedAll(requests, identifierOf, Flatten(partitions));
  }

  /** What each planned order holds, and that no wildcard is planned while it is busy. */
  lemma {:induction false} PlannedOrder(requests: seq<Request>, identifierOf: Request -> string, partitions: seq<seq<string>>, busy: set<string>, k: nat)
    requires k < |PlanOrders(requests, identifierOf, partitions, busy).orders|
    ensures var plan := PlanOrders(requests, identifierOf, partitions, busy);
            var order := plan.orders[k];
            && order.identifiers != []
            && (forall x :: x in order.identifiers ==> x in plan.busy && x in Flatten(partitions))
            && (forall x :: x in order.identifiers && IsWildcard(x) ==> x !in busy)
            && order.requests == PlannedInto(requests, identifierOf, order.identifiers)
            && (forall r :: r in order.requests <==> r in requests && identifierOf(r) in order.identifiers)
  {
    var front, partition := partitions[..|partitions| - 1], partitions[|partitions| - 1];
    var before := PlanOrders(requests, identifierOf, front, busy);
    var free := FreeIdentifiers(partition, before.busy);
    FreeFacts(partition, before.busy);
    PlannedFacts(requests, identifierOf, free);
    PlanBusy(requests, identifierOf, front, busy);
    if k < |before.orders| {
      PlannedOrder(requests, identifierOf, front, busy, k);
    }
  }

  lemma {:induction false} PlanBusy(requests: seq<Request>, identifierOf: Request -> string, partitions: seq<seq<string>>, busy: set<string>)
    ensures var plan := PlanOrders(requests, identifierOf, partitions, busy);
            forall x :: x in plan.busy <==> x in busy || exists k :: 0 <= k < |plan.orders| && x in plan.orders[k].identifiers
  {
    if partitions != [] {
      var front := partitions[..|partitions| - 1];
      PlanBusy(requests, identifierOf, front, busy);
      var before := PlanOrders(requests, identifierOf, front, busy);
      var plan := PlanOrders(requests, identifierOf, partitions, busy);
      if plan.orders != before.orders {
        assert plan.orders[..|before.orders|] == before.orders;
        var last := plan.orders[|before.orders|];
        forall x ensures x in plan.busy <==> x in busy || exists k :: 0 <= k < |plan.orders| && x in plan.orders[k].identifiers {
          if x in last.identifiers {
            assert x in plan.orders[|before.orders|].identifiers;
          } else if x in before.busy && x !in busy {
            var k :| 0 <= k < |before.orders| && x in before.orders[k].identifiers;
            assert plan.orders[k] == before.orders[k];
          }
        }
      } else {
        assert plan.busy == before.busy;
      }
    }
  }

  /** Two orders of one plan never share a wildcard. */
  lemma {:induction false} PlannedWildcardsApart(requests: seq<Request>, identifierOf: Request -> string, partitions: seq<seq<string>>, busy: set<string>, k: nat, l: nat, x: string)
    requires k < l < |PlanOrders(requests, identifierOf, partitions, busy).orders| && IsWildcard(x)
    ensures var orders := PlanOrders(requests, identifierOf, partitions, busy).orders;
            !(x in orders[k].identifiers && x in orders[l].identifiers)
  {
    var front, partition := partitions[..|partitions| - 1], partitions[|partitions| - 1];
    var before := PlanOrders(requests, identifierOf, front, busy);
    FreeFacts(partition, before.busy);
    if l < |before.orders| {
      PlannedWildcardsApart(requests, identifierOf, front, busy, k, l, x);
    } else if x in before.orders[k].identifiers {
      PlannedOrder(requests, identifierOf, front, busy, k);
    }
  }

  // ---- Requeueing survivors ----

  /** Survivors join the queue unless their name is already waiting. */
  function Requeued(queue: seq<Request>, survivors: seq<Request>): seq<Request> {
    if survivors == [] then queue else
      var before := Requeued(queue, survivors[..|survivors| - 1]);
      var last := survivors[|survivors| - 1];
      if last.domain in Domains(before) then before else before + [last]
  }

  lemma {:induction false} RequeuedLaw(queue: seq<Request>, survivors: seq<Request>)
    ensures var after := Requeued(queue, survivors);
            && (Distinct(queue) ==> Distinct(after))
            && Domains(after) == Domains(queue) + Domains(survivors)
            && (forall r :: r in after ==> r in queue || r in survivors)
            && queue <= after
            && (forall r :: r in queue ==> r in after)
  {
    if survivors != [] {
      RequeuedLaw(queue, survivors[..|survivors| - 1]);
      var before := Requeued(queue, survivors[..|survivors| - 1]);
      var last := survivors[|survivors| - 1];
      assert survivors == survivors[..|survivors| - 1] + [last];
      DomainsAppend(survivors[..|survivors| - 1], last);
      if last.domain !in Domains(before) {
        DomainsAppend(before, last);
        if Distinct(before) {
          AppendDistinct(before, last);
        }
      }
    }
  }

  // ---- The shared state ----

  class DomainIssuer {
    var queue: seq<Request>
    var queued: set<string>
    var inflight: set<string>
    var inflightIdentifiers: set<string>

    /** The queue holds no name twice, and the queued set is its names. */
    ghost predicate Valid()
      reads this
    {
      Distinct(queue) && queued == Domains(queue)
    }

    constructor ()
      ensures Valid() && queue == [] && inflight == {} && inflightIdentifiers == {}
    {
      queue, queued, inflight, inflightIdentifiers := [], {}, {}, {};
    }

    method RequestDomain(domain: string, service: string, quarantined: bool) returns (enqueued: bool)
      requires Valid()
      modifies this
      ensures Valid() && inflight == old(inflight) && inflightIdentifiers == old(inflightIdentifiers)
      ensures enqueued <==> !quarantined && domain !in old(queued) && domain !in inflight
      ensures queue == if enqueued then old(queue) + [Request(domain, service, false)] else old(queue)
    {
      if quarantined || domain in queued || domain in inflight {
        return false;
      }
      assert forall r :: r in queue ==> r.domain in queued;
      queue := queue + [Request(domain, service, false)];
      queued := queued + {domain};
      return true;
    }

    method TakePending(service: string, n: nat, eligible: string -> bool) returns (taken: seq<string>)
      requires Valid()
      modifies this
      ensures Valid() && inflightIdentifiers == old(inflightIdentifiers)
      ensures var (picked, left) := Select(old(queue), PendingFor(service, old(inflight), eligible), n);
              taken == DomainList(picked) && queue == left && inflight == old(inflight) + Domains(picked)
    {
      var all := queue;
      taken, queue, queued, inflight := PickPending(queue, queued, inflight, service, n, eligible);
      ghost var want := PendingFor(service, old(inflight), eligible);
      SelectLaw(all, want, n);
      SelectKeepsDistinct(all, Select(all, want, n).0, queue);
    }

    method ReleasePending(domains: seq<string>)
      modifies this
      ensures queue == old(queue) && queued == old(queued) && inflightIdentifiers == old(inflightIdentifiers)
      ensures inflight == old(inflight) - Elements(domains)
    {
      for i := 0 to |domains|
        invariant queue == old(queue) && queued == old(queued) && inflightIdentifiers == old(inflightIdentifiers)
        invariant inflight == old(inflight) - Elements(domains[..i])
      {
        inflight := inflight - {domains[i]};
      }
      assert domains[..|domains|] == domains;
    }

    method PopBatch(eligible: string -> bool, sizeOf: string -> nat, keyOf: string -> string) returns (batch: seq<Request>)
      requires Valid()
      modifies this
      ensures Valid() && inflightIdentifiers == old(inflightIdentifiers)
      ensures (batch, queue) == NextBatch(old(queue), old(inflight), eligible, sizeOf, keyOf)
      ensures inflight == old(inflight) + Domains(batch)
    {
      while queue != []
        invariant Valid() && inflight == old(inflight) && inflightIdentifiers == old(inflightIdentifiers)
        invariant NextBatch(queue, inflight, eligible, sizeOf, keyOf) == NextBatch(old(queue), old(inflight), eligible, sizeOf, keyOf)
        decreases |queue|
      {
        var head := queue[0];
        PopHead(queue);
        queue := queue[1..];
        queued := queued - {head.domain};
        if Issuable(inflight, eligible, head.domain) {
          batch := GatherBatch(head, eligible, sizeOf(head.service), keyOf);
          MarkInflight(batch);
          return;
        }
      }
      return [];
    }

    /** The rest of a batch whose head was just popped. */
    method GatherBatch(head: Request, eligible: string -> bool, size: nat, keyOf: string -> string) returns (batch: seq<Request>)
      requires Valid()
      modifies this`queue, this`queued
      ensures Valid()
      ensures var (taken, left) := Select(old(queue), Joins(head, inflight, eligible, keyOf), if size == 0 then 0 else size - 1);
              batch == [head] + taken && queue == left
    {
      var all := queue;
      ghost var n := if size == 0 then 0 else size - 1;
      var want := Joins(head, inflight, eligible, keyOf);
      ghost var taken: seq<Request> := [];
      var remaining: seq<Request> := [];
      batch := [head];
      for i := 0 to |all|
        invariant (taken, remaining) == Select(all[..i], want, n) && batch == [head] + taken
        invariant queued == Domains(all) - Domains(taken)
      {
        assert all[..i + 1][..i] == all[..i];
        if |batch| < size && want(all[i]) {
          batch := batch + [all[i]];
          queued := queued - {all[i].domain};
          DomainsAppend(taken, all[i]);
          taken := taken + [all[i]];
        } else {
          remaining := remaining + [all[i]];
        }
      }
      assert all[..|all|] == all;
      queue := remaining;
      SelectLaw(all, want, n);
      SelectKeepsDistinct(all, taken, remaining);
    }

    method MarkInflight(batch: seq<Request>)
      modifies this`inflight
      ensures inflight == old(inflight) + Domains(batch)
    {
      for i := 0 to |batch|
        invariant inflight == old(inflight) + Domains(batch[..i])
      {
        assert batch[..i + 1] == batch[..i] + [batch[i]];
        inflight := inflight + {batch[i].domain};
      }
      assert batch[..|batch|] == batch;
    }

    method FinishBatch(batch: seq<Request>)
      modifies this
      ensures queue == old(queue) && queued == old(queued) && inflightIdentifiers == old(inflightIdentifiers)
      ensures inflight == old(inflight) - Domains(batch)
    {
      for i := 0 to |batch|
        invariant queue == old(queue) && queued == old(queued) && inflightIdentifiers == old(inflightIdentifiers)
        invariant inflight == old(inflight) - Domains(batch[..i])
      {
        assert batch[..i + 1] == batch[..i] + [batch[i]];
        inflight := inflight - {batch[i].domain};
      }
      assert batch[..|batch|] == batch;
    }

    /** The locked half of planning: claim each partition's free identifiers. */
    method ClaimOrders(requests: seq<Request>, identifierOf: Request -> string, partitions: seq<seq<string>>) returns (orders: seq<Order>, dropped: seq<Request>)
      modifies this
      ensures queue == old(queue) && queued == old(queued) && inflight == old(inflight)
      ensures Plan(orders, dropped, inflightIdentifiers) == PlanOrders(requests, identifierOf, partitions, old(inflightIdentifiers))
    {
      orders, dropped := [], [];
      for p := 0 to |partitions|
        invariant queue == old(queue) && queued == old(queued) && inflight == old(inflight)
        invariant Plan(orders, dropped, inflightIdentifiers) == PlanOrders(requests, identifierOf, partitions[..p], old(inflightIdentifiers))
      {
        assert partitions[..p + 1][..p] == partitions[..p];
        var partition := partitions[p];
        var free := FreeOf(partition, inflightIdentifiers);
        var planned, left := Divide(requests, identifierOf, free, partition);
        dropped := dropped + left;
        if free != [] {
          inflightIdentifiers := inflightIdentifiers + Elements(free);
          orders := orders + [Order(free, planned)];
        }
      }
      assert partitions[..|partitions|] == partitions;
    }

    method ReleaseIdentifiers(identifiers: seq<string>)
      modifies this
      ensures queue == old(queue) && queued == old(queued) && inflight == old(inflight)
      ensures inflightIdentifiers == old(inflightIdentifiers) - Elements(identifiers)
    {
      for i := 0 to |identifiers|
        invariant queue == old(queue) && queued == old(queued) && inflight == old(inflight)
        invariant inflightIdentifiers == old(inflightIdentifiers) - Elements(identifiers[..i])
      {
        inflightIdentifiers := inflightIdentifiers - {identifiers[i]};
      }
      assert identifiers[..|identifiers|] == identifiers;
    }

    method Requeue(survivors: seq<Request>)
      requires Valid()
      modifies this
      ensures Valid() && inflight == old(inflight) && inflightIdentifiers == old(inflightIdentifiers)
      ensures queue == Requeued(old(queue), survivors)
    {
      for i := 0 to |survivors|
        invariant Valid() && inflight == old(inflight) && inflightIdentifiers == old(inflightIdentifiers)
        invariant queue == Requeued(old(queue), survivors[..i])
      {
        assert survivors[..i + 1][..i] == survivors[..i];
        if survivors[i].domain !in queued {
          AppendDistinct(queue, survivors[i]);
          queue := queue + [survivors[i]];
          queued := queued + {survivors[i].domain};
        }
      }
      assert survivors[..|survivors|] == survivors;
    }
  }

  function DomainList(requests: seq<Request>): seq<string> {
    seq(|requests|, i requires 0 <= i < |requests| => requests[i].domain)
  }

  /** What a top-up wants: its service's requests that nothing stands against. */
  function PendingFor(service: string, inflight: set<string>, eligible: string -> bool): Request -> bool {
    (r: Request) => r.service == service && Issuable(inflight, eligible, r.domain)
  }

  /** The pass over the queue: each wanted request leaves the queued set and enters the in-flight one at once. */
  method PickPending(queue: seq<Request>, queued: set<string>, inflight: set<string>, service: string, n: nat, eligible: string -> bool)
    returns (taken: seq<string>, remaining: seq<Request>, waiting: set<string>, flying: set<string>)
    requires Distinct(queue) && queued == Domains(queue)
    ensures var (picked, left) := Select(queue, PendingFor(service, inflight, eligible), n);
            taken == DomainList(picked) && remaining == left && waiting == queued - Domains(picked) && flying == inflight + Domains(picked)
  {
    ghost var want := PendingFor(service, inflight, eligible);
    ghost var picked: seq<Request> := [];
    taken, remaining, waiting, flying := [], [], queued, inflight;
    for i := 0 to |queue|
      invariant (picked, remaining) == Select(queue[..i], want, n)
      invariant taken == DomainList(picked) && Domains(picked) <= Domains(queue[..i])
      invariant waiting == queued - Domains(picked) && flying == inflight + Domains(picked)
    {
      assert queue[..i + 1][..i] == queue[..i];
      var request := queue[i];
      NextName(queue, i);
      if |taken| < n && request.service == service && Issuable(flying, eligible, request.domain) {
        DomainsAppend(picked, request);
        taken := taken + [request.domain];
        waiting := waiting - {request.domain};
        flying := flying + {request.domain};
        picked := picked + [request];
      } else {
        remaining := remaining + [request];
      }
    }
    assert queue[..|queue|] == queue;
  }

  method FreeOf(partition: seq<string>, busy: set<string>) returns (free: seq<string>)
    ensures free == FreeIdentifiers(partition, busy)
  {
    free := [];
    for i := 0 to |partition|
      invariant free == FreeIdentifiers(partition[..i], busy)
    {
      assert partition[..i + 1][..i] == partition[..i];
      if !(partition[i] in busy && IsWildcard(partition[i])) {
        free := free + [partition[i]];
      }
    }
    assert partition[..|partition|] == partition;
  }

  method Divide(requests: seq<Request>, identifierOf: Request -> string, free: seq<string>, partition: seq<string>)
    returns (planned: seq<Request>, left: seq<Request>)
    ensures planned == PlannedInto(requests, identifierOf, free)
    ensures left == LeftOut(requests, identifierOf, free, partition)
  {
    planned, left := [], [];
    for i := 0 to |requests|
      invariant planned == PlannedInto(requests[..i], identifierOf, free)
      invariant left == LeftOut(requests[..i], identifierOf, free, partition)
    {
      assert requests[..i + 1][..i] == requests[..i];
      if identifierOf(requests[i]) in free {
        planned := planned + [requests[i]];
      } else if identifierOf(requests[i]) in partition {
        left := left + [requests[i]];
      }
    }
    assert requests[..|requests|] == requests;
  }

  /** The next name is one not met before. */
  lemma NextName(queue: seq<Request>, i: nat)
    requires Distinct(queue) && i < |queue|
    ensures queue[i].domain !in Domains(queue[..i])
    ensures Domains(queue[..i + 1]) == Domains(queue[..i]) + {queue[i].domain}
  {
    assert queue[..i + 1] == queue[..i] + [queue[i]];
    DomainsAppend(queue[..i], queue[i]);
  }

  lemma PopHead(queue: seq<Request>)
    requires Distinct(queue) && queue != []
    ensures Distinct(queue[1..]) && Domains(queue[1..]) == Domains(queue) - {queue[0].domain}
  {
    assert queue == [queue[0]] + queue[1..];
    forall r | r in queue[1..] ensures r.domain != queue[0].domain {
      var k :| 0 <= k < |queue[1..]| && queue[1..][k] == r;
      assert queue[k + 1] == r;
    }
  }

  lemma ConsDistinct(head: Request, tail: seq<Request>)
    requires Distinct(tail) && head.domain !in Domains(tail)
    ensures Distinct([head] + tail)
  {
    assert forall i :: 0 <= i < |tail| ==> tail[i] in tail;
  }

  lemma DomainsAppend(requests: seq<Request>, r: Request)
    ensures Domains(requests + [r]) == Domains(requests) + {r.domain}
  {
    assert r in requests + [r];
  }

  lemma AppendDistinct(queue: seq<Request>, r: Request)
    requires Distinct(queue) && r.domain !in Domains(queue)
    ensures Distinct(queue + [r]) && Domains(queue + [r]) == Domains(queue) + {r.domain}
  {
    forall i | 0 <= i < |queue| ensures queue[i].domain != r.domain {
      assert queue[i] in queue;
    }
  }

  lemma SelectKeepsDistinct(queue: seq<Request>, taken: seq<Request>, left: seq<Request>)
    requires Distinct(queue) && multiset(queue) == multiset(taken) + multiset(left)
    ensures Distinct(taken) && Distinct(left) && Domains(left) == Domains(queue) - Domains(taken)
    ensures Domains(taken) !! Domains(left)
  {
    SplitDistinct(queue, taken, left);
    SplitMembers(queue, taken, left);
    var both := taken + left;
    forall i, j | 0 <= i < |taken| && 0 <= j < |left| ensures taken[i].domain != left[j].domain {
      assert both[i] == taken[i] && both[|taken| + j] == left[j];
    }
    assert forall i :: 0 <= i < |taken| ==> both[i] == taken[i];
    assert forall j :: 0 <= j < |left| ==> both[|taken| + j] == left[j];
    forall i, j | 0 <= i < j < |left| ensures left[i].domain != left[j].domain {
      assert both[|taken| + i] == left[i] && both[|taken| + j] == left[j];
    }
  }
}
