/**
 * The order of a renewal's identifiers. Names are sorted before they are planned,
 * not after, and a certificate's identifier is a digest of the list as ordered.
 */
module PlanOrder {
  import opened Text
  import opened Names
  import opened Grouping
  import opened Zones
  import opened OrderSplit
  import opened SolvableOrders
  import opened DynamicPlan
  import opened Manager
  import opened Renewal
  import opened RenewalCoverage

  predicate Sorted(l: seq<string>) {
    forall i, j :: 0 <= i < j < |l| ==> !Less(l[j], l[i])
  }

  // ---- First appearances keep the order of the list ----

  /** The first place of a key. */
  function Where(items: seq<string>, keyOf: string -> string, key: string): (i: nat)
    requires exists x :: x in items && keyOf(x) == key
    ensures i < |items| && keyOf(items[i]) == key && forall j :: 0 <= j < i ==> keyOf(items[j]) != key
  {
    if keyOf(items[0]) == key then 0 else
      assert items == [items[0]] + items[1..];
      1 + Where(items[1..], keyOf, key)
  }

  /** No earlier item has this one's key. */
  predicate NewAt(items: seq<string>, keyOf: string -> string, i: nat)
    requires i < |items|
  {
    forall j :: 0 <= j < i ==> keyOf(items[j]) != keyOf(items[i])
  }

  /** The places where a key is met for the first time. */
  function Places(items: seq<string>, keyOf: string -> string): (at: seq<nat>)
    ensures forall a :: 0 <= a < |at| ==> at[a] < |items|
    ensures forall a, b :: 0 <= a < b < |at| ==> at[a] < at[b]
    ensures |at| == |KeysInOrder(items, keyOf)|
  {
    if items == [] then [] else
      var n := |items| - 1;
      var before := Places(items[..n], keyOf);
      if keyOf(items[n]) in KeysInOrder(items[..n], keyOf) then before else before + [n]
  }

  /** They hold the keys, in order. */
  lemma {:induction false} PlacesHold(items: seq<string>, keyOf: string -> string, a: nat)
    requires a < |Places(items, keyOf)|
    ensures keyOf(items[Places(items, keyOf)[a]]) == KeysInOrder(items, keyOf)[a]
  {
    var n := |items| - 1;
    if a < |Places(items[..n], keyOf)| {
      PlacesHold(items[..n], keyOf, a);
    }
  }

  lemma SeenBefore(items: seq<string>, keyOf: string -> string, n: nat)
    requires n < |items|
    ensures keyOf(items[n]) in KeysInOrder(items[..n], keyOf) <==> !NewAt(items, keyOf, n)
  {
    var front := items[..n];
    KeysFacts(front, keyOf);
    if keyOf(items[n]) in KeysInOrder(front, keyOf) {
      var x :| x in front && keyOf(x) == keyOf(items[n]);
      var j :| 0 <= j < n && front[j] == x;
      assert keyOf(items[j]) == keyOf(items[n]);
    }
    if !NewAt(items, keyOf, n) {
      var j :| 0 <= j < n && keyOf(items[j]) == keyOf(items[n]);
      assert front[j] in front;
    }
  }

  /** And they are exactly the new ones. */
  lemma {:induction false} PlacesAreNew(items: seq<string>, keyOf: string -> string, i: nat)
    requires i < |items|
    ensures i in Places(items, keyOf) <==> NewAt(items, keyOf, i)
  {
    var n := |items| - 1;
    SeenBefore(items, keyOf, n);
    if i < n {
      PlacesAreNew(items[..n], keyOf, i);
      assert NewAt(items[..n], keyOf, i) <==> NewAt(items, keyOf, i);
    } else {
      var before := Places(items[..n], keyOf);
      assert i !in before;
    }
  }

  // ---- When a plan is sorted ----

  /** A host name: nothing that sorts before a wildcard. */
  predicate HostLike(d: string) {
    IsWildcard(d) || (d != "" && d[0] > '*')
  }

  /** An identifier is the name itself, or a wildcard standing for a concrete name. */
  ghost predicate Collapsing(plan: string -> string, domains: seq<string>) {
    forall i :: 0 <= i < |domains| ==> plan(domains[i]) == domains[i] || (IsWildcard(plan(domains[i])) && !IsWildcard(domains[i]))
  }

  /** Whatever a name is the first to collapse into comes after wildcards only, none of them greater. */
  ghost predicate CollapsesInOrder(plan: string -> string, domains: seq<string>) {
    forall i, j :: 0 <= i < j < |domains| && plan(domains[j]) != domains[j] && NewAt(domains, plan, j) ==>
      IsWildcard(plan(domains[i])) && !Less(plan(domains[j]), plan(domains[i]))
  }

  lemma WildcardFirst(w: string, d: string)
    requires IsWildcard(w) && d != "" && d[0] > '*'
    ensures Less(w, d) && !Less(d, w) && w != d
  {
    assert w[0] == w[..2][0] == '*';
  }

  lemma PairInOrder(plan: string -> string, domains: seq<string>, i: nat, j: nat)
    requires i < j < |domains| && Sorted(domains) && Collapsing(plan, domains) && CollapsesInOrder(plan, domains)
    requires HostLike(domains[i]) && HostLike(domains[j]) && NewAt(domains, plan, j)
    ensures !Less(plan(domains[j]), plan(domains[i]))
  {
    var d, e := domains[i], domains[j];
    if plan(e) == e && plan(d) != d {
      if IsWildcard(e) {
        WildcardFirst(e, d);
      } else {
        WildcardFirst(plan(d), e);
      }
    }
  }

  lemma OutOfOrder(plan: string -> string, domains: seq<string>, i: nat, j: nat)
    requires i < j < |domains| && Collapsing(plan, domains) && HostLike(domains[i])
    requires plan(domains[j]) != domains[j]
    requires !(IsWildcard(plan(domains[i])) && !Less(plan(domains[j]), plan(domains[i])))
    ensures Less(plan(domains[j]), plan(domains[i]))
  {
    if !IsWildcard(plan(domains[i])) {
      WildcardFirst(plan(domains[j]), plan(domains[i]));
    }
  }

  lemma OrderedIsSorted(plan: string -> string, domains: seq<string>, a: nat, b: nat)
    requires Sorted(domains) && Collapsing(plan, domains) && forall i :: 0 <= i < |domains| ==> HostLike(domains[i])
    requires CollapsesInOrder(plan, domains) && a < b < |KeysInOrder(domains, plan)|
    ensures !Less(KeysInOrder(domains, plan)[b], KeysInOrder(domains, plan)[a])
  {
    var at := Places(domains, plan);
    PlacesHold(domains, plan, a);
    PlacesHold(domains, plan, b);
    PlacesAreNew(domains, plan, at[b]);
    PairInOrder(plan, domains, at[a], at[b]);
  }

  lemma SortedIsOrdered(plan: string -> string, domains: seq<string>, i: nat, j: nat)
    requires Collapsing(plan, domains) && i < j < |domains| && HostLike(domains[i])
    requires Sorted(KeysInOrder(domains, plan)) && plan(domains[j]) != domains[j] && NewAt(domains, plan, j)
    ensures IsWildcard(plan(domains[i])) && !Less(plan(domains[j]), plan(domains[i]))
  {
    var at := Places(domains, plan);
    var k := FirstOf(domains, plan, i);
    PlacesAreNew(domains, plan, k);
    PlacesAreNew(domains, plan, j);
    var a :| 0 <= a < |at| && at[a] == k;
    var b :| 0 <= b < |at| && at[b] == j;
    Ordered(at, a, b);
    PlacesHold(domains, plan, a);
    PlacesHold(domains, plan, b);
    if !(IsWildcard(plan(domains[i])) && !Less(plan(domains[j]), plan(domains[i]))) {
      OutOfOrder(plan, domains, i, j);
    }
  }

  /**
   * The plan of a sorted list of host names is sorted if and only if every name
   * that is the first to collapse into its wildcard comes after wildcards only,
   * none of them greater: no name that stays concrete before it.
   */
  lemma PlanSortedIff(plan: string -> string, domains: seq<string>)
    requires Sorted(domains) && Collapsing(plan, domains) && forall i :: 0 <= i < |domains| ==> HostLike(domains[i])
    ensures Sorted(KeysInOrder(domains, plan)) <==> CollapsesInOrder(plan, domains)
  {
    var keys := KeysInOrder(domains, plan);
    if CollapsesInOrder(plan, domains) {
      forall a, b | 0 <= a < b < |keys| ensures !Less(keys[b], keys[a]) {
        OrderedIsSorted(plan, domains, a, b);
      }
    }
    if Sorted(keys) {
      forall i, j | 0 <= i < j < |domains| && plan(domains[j]) != domains[j] && NewAt(domains, plan, j)
        ensures IsWildcard(plan(domains[i])) && !Less(plan(domains[j]), plan(domains[i]))
      {
        SortedIsOrdered(plan, domains, i, j);
      }
    }
  }

  lemma Ordered(at: seq<nat>, a: nat, b: nat)
    requires a < |at| && b < |at| && at[a] < at[b] && forall i, j :: 0 <= i < j < |at| ==> at[i] < at[j]
    ensures a < b
  {
  }

  /** Where a name's identifier first stood, at or before it. */
  lemma FirstOf(domains: seq<string>, plan: string -> string, i: nat) returns (k: nat)
    requires i < |domains|
    ensures k <= i && plan(domains[k]) == plan(domains[i]) && NewAt(domains, plan, k)
  {
    assert domains[i] in domains;
    k := Where(domains, plan, plan(domains[i]));
  }

  /** The renewer's plan collapses concrete names into wildcards and leaves the rest. */
  lemma RealPlanCollapses(s: Solvers, prefer: bool, held: string -> bool, domains: seq<string>)
    ensures Collapsing((d: string) => PlanIdentifier(s, prefer, held, d), domains)
  {
    forall i | 0 <= i < |domains|
      ensures var x := PlanIdentifier(s, prefer, held, domains[i]);
              x == domains[i] || (IsWildcard(x) && !IsWildcard(domains[i]))
    {
      SameTail(ZoneOf(s.selection, domains[i]), "");
    }
  }

  lemma RealPlanSortedIff(s: Solvers, prefer: bool, held: string -> bool, domains: seq<string>)
    requires Sorted(domains) && forall i :: 0 <= i < |domains| ==> HostLike(domains[i])
    ensures Sorted(Plan(s, prefer, held, domains)) <==>
            CollapsesInOrder((d: string) => PlanIdentifier(s, prefer, held, d), domains)
  {
    RealPlanCollapses(s, prefer, held, domains);
    PlanSortedIff((d: string) => PlanIdentifier(s, prefer, held, d), domains);
  }

  // ---- One set, two identifiers ----

  /** A list is sorted in one way only. */
  lemma {:induction false} SortedUnique(p: seq<string>, q: seq<string>)
    requires Sorted(p) && Sorted(q) && multiset(p) == multiset(q)
    ensures p == q
  {
    assert |p| == |multiset(p)| == |q|;
    if p != [] {
      FirstIsLeast(p, q);
      assert p == [p[0]] + p[1..] && q == [q[0]] + q[1..];
      assert multiset(p[1..]) == multiset(p) - multiset{p[0]};
      assert multiset(q[1..]) == multiset(q) - multiset{q[0]};
      SortedUnique(p[1..], q[1..]);
    }
  }

  lemma FirstIsLeast(p: seq<string>, q: seq<string>)
    requires Sorted(p) && Sorted(q) && multiset(p) == multiset(q) && p != [] && q != []
    ensures p[0] == q[0]
  {
    assert p[0] in multiset(q) && q[0] in multiset(p);
    var i :| 0 <= i < |q| && q[i] == p[0];
    var j :| 0 <= j < |p| && p[j] == q[0];
    if p[0] != q[0] {
      LessTotal(p[0], q[0]);
    }
  }

  // ---- The orders of a renewal ----

  lemma {:induction false} KeepSame(items: seq<string>, p: string -> bool, q: string -> bool)
    requires forall x :: x in items ==> p(x) == q(x)
    ensures Keep(items, p) == Keep(items, q)
  {
    if items != [] {
      var front := items[..|items| - 1];
      assert forall x :: x in front ==> x in items;
      KeepSame(front, p, q);
      assert items[|items| - 1] in items;
    }
  }

  lemma {:induction false} KeepTwice(items: seq<string>, p: string -> bool, q: string -> bool)
    requires forall x :: q(x) ==> p(x)
    ensures Keep(Keep(items, p), q) == Keep(items, q)
  {
    if items != [] {
      var front, last := items[..|items| - 1], items[|items| - 1];
      KeepTwice(front, p, q);
      var kept := Keep(front, p);
      assert (kept + [last])[..|kept|] == kept;
    }
  }

  lemma {:induction false} MembersAreKept(items: seq<string>, keyOf: string -> string, key: string, p: string -> bool)
    requires forall x :: p(x) <==> keyOf(x) == key
    ensures Members(items, keyOf, key) == Keep(items, p)
  {
    if items != [] {
      MembersAreKept(items[..|items| - 1], keyOf, key, p);
    }
  }

  /** The items of a list that a part of it holds, in the list's order, are the part. */
  predicate Sublist(part: seq<string>, items: seq<string>) {
    part == Keep(items, x => x in part)
  }

  lemma KeptIsSublist(items: seq<string>, p: string -> bool)
    ensures Sublist(Keep(items, p), items)
  {
    var part := Keep(items, p);
    KeepSame(items, p, x => x in part);
  }

  lemma SublistTransitive(a: seq<string>, b: seq<string>, c: seq<string>)
    requires Sublist(a, b) && Sublist(b, c)
    ensures Sublist(a, c)
  {
    var inA: string -> bool := x => x in a;
    var inB: string -> bool := x => x in b;
    assert a == Keep(b, inA) && b == Keep(c, inB);
    KeepTwice(c, inB, inA);
  }

  lemma MembersAreSublist(items: seq<string>, keyOf: string -> string, key: string)
    ensures Sublist(Members(items, keyOf, key), items)
  {
    var p := x => keyOf(x) == key;
    MembersAreKept(items, keyOf, key, p);
    KeptIsSublist(items, p);
  }

  lemma SplitIsSublist(n: Naming, hasZones: bool, domains: seq<string>, k: nat)
    requires k < |Split(n, hasZones, domains)|
    ensures Sublist(Split(n, hasZones, domains)[k], domains)
  {
    var anchors := Anchors(n, domains);
    if !hasZones && anchors == [] {
      var p: string -> bool := x => x in domains;
      KeepEverything(domains, p);
    } else {
      var keyOf := (d: string) => PartitionKey(n, anchors, d);
      MembersAreSublist(domains, keyOf, KeysInOrder(domains, keyOf)[k]);
    }
  }

  lemma {:induction false} KeepEverything(items: seq<string>, p: string -> bool)
    requires forall x :: x in items ==> p(x)
    ensures Keep(items, p) == items
  {
    if items != [] {
      var front, last := items[..|items| - 1], items[|items| - 1];
      assert items == front + [last];
      KeepEverything(front, p);
    }
  }

  /** Neither split reorders: an order is a sub-list of the plan. */
  lemma OrderIsSublist(sv: Solvers, directoryOf: string -> string, planned: seq<string>, j: nat, k: nat)
    requires j < |PlanParts(sv, directoryOf, planned)| && k < |PlanParts(sv, directoryOf, planned)[j].orders|
    ensures Sublist(PlanParts(sv, directoryOf, planned)[j].orders[k], planned)
  {
    var key := KeysInOrder(planned, directoryOf)[j];
    var members := Members(planned, directoryOf, key);
    MembersAreSublist(planned, directoryOf, key);
    SplitIsSublist(NamingOf(sv), HasZones(sv), members, k);
    SublistTransitive(Orders(sv, members)[k], members, planned);
  }

  /** Choosing identifiers from a plan is planning the names they stand for. */
  lemma {:induction false} KeysOfKept(names: seq<string>, plan: string -> string, chosen: string -> bool, stands: string -> bool)
    requires forall d :: stands(d) <==> chosen(plan(d))
    ensures KeysInOrder(Keep(names, stands), plan) == Keep(KeysInOrder(names, plan), chosen)
  {
    if names != [] {
      var front, last := names[..|names| - 1], names[|names| - 1];
      KeysOfKept(front, plan, chosen, stands);
      var kept, keys := Keep(front, stands), KeysInOrder(front, plan);
      assert (kept + [last])[..|kept|] == kept;
      assert (keys + [plan(last)])[..|keys|] == keys;
    }
  }

  lemma {:induction false} KeptStaysSorted(l: seq<string>, p: string -> bool)
    requires Sorted(l)
    ensures Sorted(Keep(l, p))
  {
    if l != [] {
      var front, last := l[..|l| - 1], l[|l| - 1];
      KeptStaysSorted(front, p);
      var kept := Keep(front, p);
      forall i | 0 <= i < |kept| ensures !Less(last, kept[i]) {
        assert kept[i] in front;
      }
    }
  }

  /** The names of a renewal that are planned into an order. */
  function NamesIn(sv: Solvers, prefer: bool, held: string -> bool, domains: seq<string>, order: seq<string>): seq<string> {
    Keep(domains, d => PlanIdentifier(sv, prefer, held, d) in order)
  }

  /** An order is the plan of the names planned into it. */
  lemma OrderIsPlanOfItsNames(sv: Solvers, prefer: bool, held: string -> bool, domains: seq<string>, order: seq<string>)
    requires Sublist(order, Plan(sv, prefer, held, domains))
    ensures order == Plan(sv, prefer, held, NamesIn(sv, prefer, held, domains, order))
  {
    var plan := (d: string) => PlanIdentifier(sv, prefer, held, d);
    KeysOfKept(domains, plan, x => x in order, d => PlanIdentifier(sv, prefer, held, d) in order);
  }

  /**
   * Each order left by the two splits is the plan of the names planned into it. It
   * is sorted -- it is the one sorted list of its identifiers, the list the issuer
   * orders and names a certificate after -- if and only if those names collapse in
   * order; names that another order holds do not matter.
   */
  lemma RenewalOrderIsSortedIff(sv: Solvers, prefer: bool, held: string -> bool, directoryOf: string -> string, domains: seq<string>, j: nat, k: nat, sorted: seq<string>)
    requires Sorted(domains) && forall i :: 0 <= i < |domains| ==> HostLike(domains[i])
    requires var parts := PlanParts(sv, directoryOf, Plan(sv, prefer, held, domains)); j < |parts| && k < |parts[j].orders|
    requires var order := PlanParts(sv, directoryOf, Plan(sv, prefer, held, domains))[j].orders[k];
             Sorted(sorted) && multiset(sorted) == multiset(order)
    ensures var order := PlanParts(sv, directoryOf, Plan(sv, prefer, held, domains))[j].orders[k];
            var names := NamesIn(sv, prefer, held, domains, order);
            && order == Plan(sv, prefer, held, names)
            && (Sorted(order) <==> CollapsesInOrder((d: string) => PlanIdentifier(sv, prefer, held, d), names))
            && (order == sorted <==> Sorted(order))
  {
    var order := PlanParts(sv, directoryOf, Plan(sv, prefer, held, domains))[j].orders[k];
    var names := NamesIn(sv, prefer, held, domains, order);
    OrderIsSublist(sv, directoryOf, Plan(sv, prefer, held, domains), j, k);
    OrderIsPlanOfItsNames(sv, prefer, held, domains, order);
    NamesStayHosts(sv, prefer, held, domains, order);
    RealPlanSortedIff(sv, prefer, held, names);
    if Sorted(order) {
      SortedUnique(order, sorted);
    }
  }

  lemma NamesStayHosts(sv: Solvers, prefer: bool, held: string -> bool, domains: seq<string>, order: seq<string>)
    requires Sorted(domains) && forall i :: 0 <= i < |domains| ==> HostLike(domains[i])
    ensures var names := NamesIn(sv, prefer, held, domains, order);
            Sorted(names) && forall i :: 0 <= i < |names| ==> HostLike(names[i])
  {
    KeptStaysSorted(domains, d => PlanIdentifier(sv, prefer, held, d) in order);
    var names := NamesIn(sv, prefer, held, domains, order);
    forall i | 0 <= i < |names| ensures HostLike(names[i]) {
      assert names[i] in domains;
    }
  }

  /** A deeper name and its zone's wildcard, under one provider that answers for both, are one order as they stand. */
  lemma PairIsOneOrder(n: Naming, a: string, w: string)
    requires !n.wild(a) && n.wild(w) && n.solvable(w) && n.providerKey(a) == n.providerKey(w) && n.contains(n.zone(w), a)
    ensures Split(n, true, [a, w]) == [[a, w]]
  {
    var anchor := AnchorFor(n, w);
    PairAnchors(n, a, w);
    assert AnchorJoined(n, [anchor], w) == Some(anchor);
    assert Encloses(n, [anchor][0], a);
    assert AnchorJoined(n, [anchor], a) == Some(anchor);
    var keyOf := (d: string) => PartitionKey(n, [anchor], d);
    PairGroup(a, w, keyOf);
  }

  lemma PairAnchors(n: Naming, a: string, w: string)
    requires !n.wild(a) && n.wild(w)
    ensures Anchors(n, [a, w]) == [AnchorFor(n, w)]
  {
    assert [a, w][..1] == [a] && [a][..0] == [];
    assert CollectAnchors(n, [a]) == [];
    assert !ZoneSeen([], n.zone(w));
    var collected := CollectAnchors(n, [a, w]);
    assert collected == [AnchorFor(n, w)];
    assert collected[..0] == [] && SortAnchors(collected[..0]) == [];
  }

  lemma PairGroup(a: string, w: string, keyOf: string -> string)
    requires keyOf(a) == keyOf(w)
    ensures GroupBy([a, w], keyOf) == [[a, w]]
  {
    assert [a, w][..1] == [a] && [a][..0] == [];
    assert KeysInOrder([a], keyOf) == [keyOf(a)] && Members([a], keyOf, keyOf(a)) == [a];
    assert KeysInOrder([a, w], keyOf) == [keyOf(a)] && Members([a, w], keyOf, keyOf(a)) == [a, w];
  }

  lemma DeepPair(d: string, e: string, zone: string, w: string)
    requires d == "a.b.z.io" && e == "c.z.io" && zone == "z.io" && w == "*." + zone
    ensures Less(d, e) && Less(w, d) && w != d && d != e && e != w
    ensures HostLike(d) && HostLike(e) && !IsWildcard(d) && !IsWildcard(e)
    ensures Sorted([d, e]) && Sorted([w, d]) && !Sorted([d, w])
  {
    assert d[0] == 'a' && e[0] == 'c' && w[0] == '*';
    LessAsymmetric(d, e);
    assert d[..2] == "a." && e[..2] == "c.";
    LessAsymmetric(w, d);
    assert [d, w][1] == w && [d, w][0] == d;
  }

  // The two names and the zone, in their normal forms.

  lemma DeepForm(d: string)
    requires d == "a.b.z.io"
    ensures NormalizeDomainName(d) == d && NormalizeZone(d) == d
  {
    PlainForms(d);
  }

  lemma ZoneForm(zone: string, w: string)
    requires zone == "z.io" && w == "*." + zone
    ensures IsWildcard(w) && NormalizeZone(w) == zone && WildcardZone(w) == zone
  {
    WildcardForms(zone, w);
  }

  lemma FlatForm(e: string)
    requires e == "c.z.io"
    ensures NormalizeDomainName(e) == e && NormalizeZone(e) == e
  {
    PlainForms(e);
  }

  lemma WildcardForms(zone: string, w: string)
    requires w == "*." + zone && Unpadded(zone) && forall k :: 0 <= k < |zone| ==> LowerChar(zone[k]) == zone[k]
    ensures IsWildcard(w) && NormalizeZone(w) == zone && WildcardZone(w) == zone
  {
    SameTail(zone, zone);
    assert w[2..] == zone;
    PlainName(zone);
    OneNormalForm(w);
  }

  lemma PlainName(d: string)
    requires Unpadded(d) && forall k :: 0 <= k < |d| ==> LowerChar(d[k]) == d[k]
    ensures NormalizeDomainName(d) == d
  {
    UnpaddedName(d);
    assert ToLower(d) == d;
  }

  lemma PlainForms(d: string)
    requires Unpadded(d) && d[0] != '*' && forall k :: 0 <= k < |d| ==> LowerChar(d[k]) == d[k]
    ensures NormalizeDomainName(d) == d && NormalizeZone(d) == d
  {
    PlainName(d);
    assert !IsWildcard(d) by {
      assert |d| >= 2 ==> d[0] == d[..2][0];
    }
    UnpaddedZone(d);
    assert ToLower(d) == d;
  }

  lemma DeepZones(d: string, e: string, zone: string)
    requires d == "a.b.z.io" && e == "c.z.io" && zone == "z.io"
    ensures ZoneMatches(zone, d) && ZoneMatches(zone, e) && !OneLabelBelow(zone, d) && OneLabelBelow(zone, e)
  {
    assert d[3..] == "." + zone && d[..3] == "a.b" && "a.b"[1] == '.';
    assert e[1..] == "." + zone && e[..1] == "c";
  }

  /** A zone mapped to an armed provider. */
  function OneZone(zone: string): Solvers {
    Solvers(Selection("", map[zone := "p"]), false, {"p"})
  }

  /** The deeper name stays, the other becomes the wildcard, and one provider answers for both. */
  lemma DeepPlanned(d: string, e: string, zone: string, w: string)
    requires d == "a.b.z.io" && e == "c.z.io" && zone == "z.io" && w == "*." + zone
    ensures var s := OneZone(zone);
            && ZoneOf(s.selection, d) == zone && ZoneOf(s.selection, w) == zone && HasSolver(s, w)
            && MappedZoneWildcard(s, d) == None && MappedZoneWildcard(s, e) == Some(w)
            && ZoneContains(zone, d)
  {
    var s := OneZone(zone);
    DeepPair(d, e, zone, w);
    DeepForm(d);
    FlatForm(e);
    ZoneForm(zone, w);
    DeepZones(d, e, zone);
    OnlyZone(s.selection, d, zone);
    OnlyZone(s.selection, e, zone);
    OnlyZone(s.selection, w, zone);
    MapsTo(s, e, zone, w);
  }

  /**
   * The failing family is inhabited: two sorted names, the deeper of which stays
   * concrete, renew in one directory as one order that is not sorted, so its
   * certificate is named after a list the issuer would have ordered the other way
   * round. In two directories they are two sorted orders.
   */
  lemma DeepNameUnsorts(digest: seq<string> -> string, directoryOf: string -> string, d: string, e: string, zone: string, w: string)
    requires d == "a.b.z.io" && e == "c.z.io" && zone == "z.io" && w == "*." + zone
    ensures Sorted([d, e]) && Plan(OneZone(zone), true, _ => false, [d, e]) == [d, w] && !Sorted([d, w])
    ensures PlanParts(OneZone(zone), directoryOf, [d, w]) ==
            if directoryOf(d) == directoryOf(w) then [Part(directoryOf(d), [[d, w]])]
            else [Part(directoryOf(d), [[d]]), Part(directoryOf(w), [[w]])]
    ensures Sorted([w, d]) && multiset([w, d]) == multiset([d, w])
    ensures SanCertID(digest, [d, w]) == SanCertID(digest, [w, d]) <==> digest([d, w]) == digest([w, d])
  {
    DeepPair(d, e, zone, w);
    DeepRenewal(directoryOf, d, e, zone, w);
    SameDigest(digest, [d, w], [w, d]);
  }

  lemma DeepRenewal(directoryOf: string -> string, d: string, e: string, zone: string, w: string)
    requires d == "a.b.z.io" && e == "c.z.io" && zone == "z.io" && w == "*." + zone
    ensures Plan(OneZone(zone), true, _ => false, [d, e]) == [d, w]
    ensures PlanParts(OneZone(zone), directoryOf, [d, w]) ==
            if directoryOf(d) == directoryOf(w) then [Part(directoryOf(d), [[d, w]])]
            else [Part(directoryOf(d), [[d]]), Part(directoryOf(w), [[w]])]
  {
    var s := OneZone(zone);
    DeepPair(d, e, zone, w);
    DeepPlanned(d, e, zone, w);
    ZoneForm(zone, w);
    DeepPlan(s, d, e, w);
    DeepOrder(s, directoryOf, d, zone, w);
  }

  lemma SameDigest(digest: seq<string> -> string, p: seq<string>, q: seq<string>)
    ensures SanCertID(digest, p) == SanCertID(digest, q) <==> digest(p) == digest(q)
  {
    assert SanCertID(digest, p)[4..] == digest(p) && SanCertID(digest, q)[4..] == digest(q);
  }

  lemma DeepPlan(s: Solvers, d: string, e: string, w: string)
    requires MappedZoneWildcard(s, d) == None && MappedZoneWildcard(s, e) == Some(w) && d != w
    ensures Plan(s, true, _ => false, [d, e]) == [d, w]
  {
    PairKeys(d, e, (x: string) => PlanIdentifier(s, true, _ => false, x), d, w);
  }

  lemma PairKeys(d: string, e: string, keyOf: string -> string, a: string, b: string)
    requires keyOf(d) == a && keyOf(e) == b && a != b
    ensures KeysInOrder([d, e], keyOf) == [a, b]
  {
    assert [d, e][..1] == [d] && [d][..0] == [];
    assert KeysInOrder([d], keyOf) == [a];
  }

  lemma DeepOrder(s: Solvers, directoryOf: string -> string, d: string, zone: string, w: string)
    requires s == OneZone(zone) && !IsWildcard(d) && IsWildcard(w) && HasSolver(s, w) && WildcardZone(w) == zone
    requires ZoneOf(s.selection, d) == zone && ZoneOf(s.selection, w) == zone && ZoneContains(zone, d)
    ensures PlanParts(s, directoryOf, [d, w]) ==
            if directoryOf(d) == directoryOf(w) then [Part(directoryOf(d), [[d, w]])]
            else [Part(directoryOf(d), [[d]]), Part(directoryOf(w), [[w]])]
  {
    assert zone in s.selection.zones;
    if directoryOf(d) == directoryOf(w) {
      PairIsOneOrder(NamingOf(s), d, w);
      OneDirectory(s, directoryOf, d, w, directoryOf(d));
    } else {
      TwoDirectories(s, directoryOf, d, w);
    }
  }

  /** Two identifiers of two directories are an order each. */
  lemma TwoDirectories(s: Solvers, directoryOf: string -> string, d: string, w: string)
    requires HasZones(s) && directoryOf(d) != directoryOf(w)
    ensures PlanParts(s, directoryOf, [d, w]) == [Part(directoryOf(d), [[d]]), Part(directoryOf(w), [[w]])]
  {
    PairKeys(d, w, directoryOf, directoryOf(d), directoryOf(w));
    PairMembers(d, w, directoryOf);
    SingleOrder(s, d);
    SingleOrder(s, w);
  }

  lemma PairMembers(d: string, w: string, keyOf: string -> string)
    requires keyOf(d) != keyOf(w)
    ensures Members([d, w], keyOf, keyOf(d)) == [d] && Members([d, w], keyOf, keyOf(w)) == [w]
  {
    assert [d, w][..1] == [d] && [d][..0] == [];
    assert Members([d], keyOf, keyOf(d)) == [d] && Members([d], keyOf, keyOf(w)) == [];
  }

  lemma SingleOrder(s: Solvers, x: string)
    requires HasZones(s)
    ensures Orders(s, [x]) == [[x]]
  {
    var n := NamingOf(s);
    SingleGroup(x, (d: string) => PartitionKey(n, Anchors(n, [x]), d));
  }

  /** Two identifiers of one directory are split by solvability alone. */
  lemma OneDirectory(s: Solvers, directoryOf: string -> string, d: string, w: string, home: string)
    requires directoryOf(d) == home && directoryOf(w) == home
    ensures PlanParts(s, directoryOf, [d, w]) == [Part(home, Orders(s, [d, w]))]
  {
    PairGroup(d, w, directoryOf);
    PairOneKey(d, w, directoryOf);
    assert KeysInOrder([d, w], directoryOf) == [home];
    assert Members([d, w], directoryOf, home) == GroupBy([d, w], directoryOf)[0] == [d, w];
  }

  lemma PairOneKey(d: string, w: string, keyOf: string -> string)
    requires keyOf(d) == keyOf(w)
    ensures KeysInOrder([d, w], keyOf) == [keyOf(d)]
  {
    assert [d, w][..1] == [d] && [d][..0] == [];
    assert KeysInOrder([d], keyOf) == [keyOf(d)];
  }
}
