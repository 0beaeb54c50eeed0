/** A whole renewal with the real planner and order split: no name loses its certificate. */
module RenewalCoverage {
  import opened Text
  import opened Names
  import opened Grouping
  import opened Zones
  import opened OrderSplit
  import opened SolvableOrders
  import opened DynamicPlan
  import opened Manager
  import opened CertManager
  import opened Renewal

  /** Split by the directory each identifier's owner wants, then by challenge solvability. */
  function PlanParts(sv: Solvers, directoryOf: string -> string, planned: seq<string>): seq<Part> {
    var keys := KeysInOrder(planned, directoryOf);
    seq(|keys|, i requires 0 <= i < |keys| => Part(keys[i], Orders(sv, Members(planned, directoryOf, keys[i]))))
  }

  function AllOrders(parts: seq<Part>): seq<seq<string>> {
    if parts == [] then [] else AllOrders(parts[..|parts| - 1]) + parts[|parts| - 1].orders
  }

  lemma {:induction false} InAllOrders(parts: seq<Part>, j: nat, k: nat)
    requires j < |parts| && k < |parts[j].orders|
    ensures parts[j].orders[k] in AllOrders(parts)
  {
    var n := |parts| - 1;
    if j < n {
      InAllOrders(parts[..n], j, k);
    }
  }

  lemma {:induction false} InFlattened(parts: seq<seq<string>>, x: string) returns (k: nat)
    requires x in Flatten(parts)
    ensures k < |parts| && x in parts[k]
  {
    var n := |parts| - 1;
    if x in parts[n] {
      k := n;
    } else {
      k := InFlattened(parts[..n], x);
    }
  }

  /** Every planned identifier is in one of the orders. */
  lemma PlannedIsAsked(sv: Solvers, directoryOf: string -> string, planned: seq<string>, x: string)
    requires x in planned
    ensures Asked(PlanParts(sv, directoryOf, planned), x)
  {
    var j := PartOf(planned, directoryOf, x);
    var key := KeysInOrder(planned, directoryOf)[j];
    var members := Members(planned, directoryOf, key);
    SplitPermutes(NamingOf(sv), HasZones(sv), members);
    assert x in multiset(members);
    assert x in multiset(Flatten(Orders(sv, members)));
    var k := InFlattened(Orders(sv, members), x);
    var parts := PlanParts(sv, directoryOf, planned);
    assert parts[j].orders[k] == Orders(sv, members)[k];
  }

  /** All a renewal is given: how names are planned, whom they belong to, and who is blocked. */
  datatype Setting = Setting(solvers: Solvers, prefer: bool, held: string -> bool, unreachable: string -> bool,
                             directoryOf: string -> string, cert: Cert, now: int)

  /** The names renewed, topped up from the queue and sorted, and the identifiers they are planned into. */
  ghost predicate PlannedFrom(g: Setting, domains: seq<string>, batch: seq<string>, planned: seq<string>) {
    && (forall d :: d in domains ==> d in batch)
    && (forall x :: x in planned <==> exists d :: d in batch && x == PlanIdentifier(g.solvers, g.prefer, g.held, d))
  }

  predicate Blocked(g: Setting, d: string) {
    g.held(d) || g.unreachable(d)
  }

  /** The wildcard a name collapses into, if it does, covers it: lower-case hostnames always qualify. */
  predicate CollapsesSafely(g: Setting, d: string) {
    PlanIdentifier(g.solvers, g.prefer, g.held, d) == d || CanonicalTail(d)
  }

  /** A handshake for one of its own names would still be answered with this certificate. */
  predicate StillServes(s: Store, cert: Cert) {
    exists i :: 0 <= i < |cert.domains| && cert.domains[i] in s.domainMap && s.domainMap[cert.domains[i]] == cert.identifier
  }

  /** A certificate with nothing to renew goes, unless it still serves and has not expired. */
  predicate Retained(s: Store, g: Setting) {
    StillServes(s, g.cert) && g.now < g.cert.notAfter
  }

  /** The store after the renewer has looked at a certificate. */
  function StoreAfter(r: Renewing, g: Setting, planned: seq<string>, outcome: (nat, nat) -> Outcome, s: Store): Store {
    match Decide(s, r.owners, g.cert, g.held, g.unreachable, g.now)
    case Retire => if Retained(s, g) then s else Remove(s, g.cert.identifier)
    case Defer => s
    case Proceed(_) => Renewed(r, PlanParts(g.solvers, g.directoryOf, planned), outcome, s)
  }

  lemma StoreAfterValid(r: Renewing, g: Setting, planned: seq<string>, outcome: (nat, nat) -> Outcome, s: Store)
    requires ValidStore(s) && Compatible(r, s, AllOrders(PlanParts(g.solvers, g.directoryOf, planned)))
    ensures ValidStore(StoreAfter(r, g, planned, outcome, s))
  {
    RenewedPartsValid(r, PlanParts(g.solvers, g.directoryOf, planned), outcome, s);
    RemoveValid(s, g.cert.identifier);
  }

  lemma RenewedPartsValid(r: Renewing, parts: seq<Part>, outcome: (nat, nat) -> Outcome, s: Store)
    requires ValidStore(s) && Compatible(r, s, AllOrders(parts))
    ensures ValidStore(Renewed(r, parts, outcome, s))
  {
    forall j, k | 0 <= j < |parts| && 0 <= k < |parts[j].orders| ensures parts[j].orders[k] in AllOrders(parts) {
      InAllOrders(parts, j, k);
    }
    RenewedValid(r, parts, outcome, s, AllOrders(parts));
  }

  lemma PlanCovers(g: Setting, d: string, x: string)
    requires x == PlanIdentifier(g.solvers, g.prefer, g.held, d) && CollapsesSafely(g, d)
    ensures x == d || MatchesWildcard(x, d)
  {
    PlanCoversIff(g.solvers, g.prefer, g.held, d);
    assert [x][0] == x;
  }

  /** What a renewal that goes ahead leaves. */
  lemma ProceedMeans(r: Renewing, g: Setting, planned: seq<string>, outcome: (nat, nat) -> Outcome, s: Store)
    requires Decide(s, r.owners, g.cert, g.held, g.unreachable, g.now).Proceed?
    ensures StoreAfter(r, g, planned, outcome, s) == Renewed(r, PlanParts(g.solvers, g.directoryOf, planned), outcome, s)
  {
  }

  /** A mapping to another certificate survives whatever the renewer decides. */
  lemma ForeignStaysMapped(r: Renewing, g: Setting, planned: seq<string>, outcome: (nat, nat) -> Outcome, s: Store, x: string)
    requires r.oldID == g.cert.identifier && x in s.domainMap && s.domainMap[x] != r.oldID
    ensures x in StoreAfter(r, g, planned, outcome, s).domainMap
  {
    IdentifierStaysMapped(r, PlanParts(g.solvers, g.directoryOf, planned), outcome, s, x);
  }

  /** And no name that another certificate answers for is touched. */
  lemma RenewalKeepsOthers(r: Renewing, g: Setting, planned: seq<string>, outcome: (nat, nat) -> Outcome, s: Store, d: string)
    requires ValidStore(s) && Compatible(r, s, AllOrders(PlanParts(g.solvers, g.directoryOf, planned)))
    requires r.oldID == g.cert.identifier && Answered(s, d) && CertIDCovering(s, d) != r.oldID
    ensures Served(StoreAfter(r, g, planned, outcome, s), d)
  {
    StoreAfterValid(r, g, planned, outcome, s);
    var key := if d in s.domainMap then d else WildcardParent(d).value;
    ForeignStaysMapped(r, g, planned, outcome, s, key);
    AnsweredIsServed(StoreAfter(r, g, planned, outcome, s), d);
  }

  lemma RenewedWildcardPlanned(r: Renewing, g: Setting, batch: seq<string>, planned: seq<string>, s: Store, w: string)
    requires Decide(s, r.owners, g.cert, g.held, g.unreachable, g.now).Proceed?
    requires PlannedFrom(g, Decide(s, r.owners, g.cert, g.held, g.unreachable, g.now).domains, batch, planned)
    requires w in RenewableDomains(s, r.owners, g.cert) && !Blocked(g, w) && IsWildcard(w)
    ensures w in planned && w in s.domainMap
  {
    LeftOutOnlyLate(s, r.owners, g.cert, g.held, g.unreachable, g.now);
    WildcardPlannedAsItself(g, w);
    assert w in batch;
  }

  /** Nor one answered through a wildcard of the renewed certificate, while that wildcard is renewed. */
  lemma RenewalKeepsCoveredByWildcard(r: Renewing, g: Setting, batch: seq<string>, planned: seq<string>, outcome: (nat, nat) -> Outcome, s: Store, w: string, d: string)
    requires ValidStore(s) && r.oldID == g.cert.identifier
    requires Compatible(r, s, AllOrders(PlanParts(g.solvers, g.directoryOf, planned)))
    requires Decide(s, r.owners, g.cert, g.held, g.unreachable, g.now).Proceed?
    requires PlannedFrom(g, Decide(s, r.owners, g.cert, g.held, g.unreachable, g.now).domains, batch, planned)
    requires w in RenewableDomains(s, r.owners, g.cert) && !Blocked(g, w) && MatchesWildcard(w, d)
    ensures Served(StoreAfter(r, g, planned, outcome, s), d)
  {
    RenewedWildcardPlanned(r, g, batch, planned, s, w);
    KeptUnder(r, g, planned, outcome, s, d);
  }

  /** Every order of every directory is one the issuance checks accept. */
  lemma RenewalOrdersAccepted(sv: Solvers, directoryOf: string -> string, planned: seq<string>, j: nat, k: nat)
    requires PlainProviders(sv.selection) && ConsistentlySpelled(planned)
    requires j < |PlanParts(sv, directoryOf, planned)| && k < |PlanParts(sv, directoryOf, planned)[j].orders|
    ensures OrderAccepted(NamingOf(sv), PlanParts(sv, directoryOf, planned)[j].orders[k])
    ensures UnsolvableIsolated(NamingOf(sv), PlanParts(sv, directoryOf, planned)[j].orders[k])
  {
    var key := KeysInOrder(planned, directoryOf)[j];
    var members := Members(planned, directoryOf, key);
    MembersFacts(planned, directoryOf, key);
    SubsetConsistent(planned, members);
    OrdersAccepted(sv, members);
  }

  lemma SubsetConsistent(all: seq<string>, some: seq<string>)
    requires ConsistentlySpelled(all) && forall x :: x in some ==> x in all
    ensures ConsistentlySpelled(some)
  {
  }

  // ---- Exactly which names a renewal keeps ----

  /** Every identifier of an order was planned, and is wanted from the directory its order goes to. */
  lemma AskedIsPlanned(sv: Solvers, directoryOf: string -> string, planned: seq<string>, j: nat, k: nat, x: string)
    requires j < |PlanParts(sv, directoryOf, planned)| && k < |PlanParts(sv, directoryOf, planned)[j].orders|
    requires x in PlanParts(sv, directoryOf, planned)[j].orders[k]
    ensures x in planned && PlanParts(sv, directoryOf, planned)[j].directory == directoryOf(x)
  {
    var key := KeysInOrder(planned, directoryOf)[j];
    var members := Members(planned, directoryOf, key);
    SplitPermutes(NamingOf(sv), HasZones(sv), members);
    FlattenHas(Orders(sv, members), k, x);
    assert x in multiset(Flatten(Orders(sv, members)));
    assert x in multiset(members);
    MembersFacts(planned, directoryOf, key);
  }

  lemma {:induction false} FlattenHas(parts: seq<seq<string>>, k: nat, x: string)
    requires k < |parts| && x in parts[k]
    ensures x in Flatten(parts)
  {
    var n := |parts| - 1;
    if k < n {
      FlattenHas(parts[..n], k, x);
    }
  }

  /** Some order is for the very list the old certificate was issued for, so its successor is itself. */
  ghost predicate Reissued(r: Renewing, parts: seq<Part>) {
    exists j, k :: 0 <= j < |parts| && 0 <= k < |parts[j].orders| && SanCertID(r.digest, parts[j].orders[k]) == r.oldID
  }

  /** Planned, or mapped to a certificate other than the renewed one. */
  predicate Stays(s: Store, oldID: string, planned: seq<string>, x: string) {
    x in planned || (x in s.domainMap && s.domainMap[x] != oldID)
  }

  /** The name stays, or the wildcard above it does. */
  predicate StaysAnswered(s: Store, oldID: string, planned: seq<string>, d: string) {
    Stays(s, oldID, planned, d) || (WildcardParent(d).Some? && Stays(s, oldID, planned, WildcardParent(d).value))
  }

  /** Whatever is not answered is not served. */
  lemma ServedIsAnswered(s: Store, d: string)
    requires ValidStore(s) && Served(s, d)
    ensures Answered(s, d)
  {
    assert SanitizeFilename("") == "";
  }

  lemma NotAnsweredNotServed(s: Store, d: string)
    requires ValidStore(s) && !Answered(s, d)
    ensures !Served(s, d)
  {
    if Served(s, d) {
      ServedIsAnswered(s, d);
    }
  }

  /** If everything was renewed, so was everything before the last order, and that was adopted. */
  lemma LastAdopted(r: Renewing, directory: string, orders: seq<seq<string>>, outcome: nat -> Outcome, p: Progress)
    requires orders != [] && RenewPart(r, directory, orders, outcome, p).0.renewedAll
    ensures var n := |orders| - 1;
            var before := RenewPart(r, directory, orders[..n], outcome, p).0;
            && before.renewedAll
            && RenewPart(r, directory, orders, outcome, p).0.newIDs == before.newIDs + [SanCertID(r.digest, orders[n])]
  {
    PartFailureStays(r, directory, orders[..|orders| - 1], outcome, p);
  }

  /** If everything was renewed, every order's identifier is among the new ones. */
  lemma {:induction false} PartIDs(r: Renewing, directory: string, orders: seq<seq<string>>, outcome: nat -> Outcome, p: Progress, k: nat)
    requires k < |orders| && RenewPart(r, directory, orders, outcome, p).0.renewedAll
    ensures SanCertID(r.digest, orders[k]) in RenewPart(r, directory, orders, outcome, p).0.newIDs
  {
    LastAdopted(r, directory, orders, outcome, p);
    if k < |orders| - 1 {
      PartIDs(r, directory, orders[..|orders| - 1], outcome, p, k);
    }
  }

  /** A directory that stopped has a failure behind it. */
  lemma {:induction false} PartFailureStays(r: Renewing, directory: string, orders: seq<seq<string>>, outcome: nat -> Outcome, p: Progress)
    ensures var (q, stopped) := RenewPart(r, directory, orders, outcome, p);
            && (stopped ==> !q.renewedAll) && (q.renewedAll ==> p.renewedAll)
            && (forall id :: id in p.newIDs ==> id in q.newIDs)
  {
    if orders != [] {
      PartFailureStays(r, directory, orders[..|orders| - 1], outcome, p);
    }
  }

  /** If everything was renewed, so was everything before the last directory, and no identifier was lost since. */
  lemma LastPartRenewed(r: Renewing, parts: seq<Part>, outcome: (nat, nat) -> Outcome, p: Progress)
    requires parts != [] && RenewParts(r, parts, outcome, p).renewedAll
    ensures var n := |parts| - 1;
            var before, after := RenewParts(r, parts[..n], outcome, p), RenewParts(r, parts, outcome, p);
            && before.renewedAll && (forall id :: id in before.newIDs ==> id in after.newIDs)
            && after == RenewPart(r, parts[n].directory, parts[n].orders, (i: nat) => outcome(n, i), before).0
  {
    var n := |parts| - 1;
    PartFailureStays(r, parts[n].directory, parts[n].orders, (i: nat) => outcome(n, i), RenewParts(r, parts[..n], outcome, p));
  }

  lemma {:induction false} PartsIDs(r: Renewing, parts: seq<Part>, outcome: (nat, nat) -> Outcome, p: Progress, j: nat, k: nat)
    requires j < |parts| && k < |parts[j].orders| && RenewParts(r, parts, outcome, p).renewedAll
    ensures SanCertID(r.digest, parts[j].orders[k]) in RenewParts(r, parts, outcome, p).newIDs
  {
    var n := |parts| - 1;
    LastPartRenewed(r, parts, outcome, p);
    if j < n {
      assert parts[..n][j] == parts[j];
      PartsIDs(r, parts[..n], outcome, p, j, k);
    } else {
      PartIDs(r, parts[n].directory, parts[n].orders, (i: nat) => outcome(n, i), RenewParts(r, parts[..n], outcome, p), k);
    }
  }

  /** Whatever the outcomes, an answered name that stays is answered afterwards. */
  lemma StayingIsKept(r: Renewing, parts: seq<Part>, planned: seq<string>, outcome: (nat, nat) -> Outcome, s: Store, d: string)
    requires forall x :: x in planned ==> Asked(parts, x)
    requires Answered(s, d) && (Reissued(r, parts) || StaysAnswered(s, r.oldID, planned, d))
    ensures Answered(Renewed(r, parts, outcome, s), d)
  {
    var p := RenewParts(r, parts, outcome, Begin(s, {}));
    PartsFold(r, parts, outcome, Begin(s, {}), s);
    if p.renewedAll && r.oldID !in p.newIDs {
      if Reissued(r, parts) {
        var j, k :| 0 <= j < |parts| && 0 <= k < |parts[j].orders| && SanCertID(r.digest, parts[j].orders[k]) == r.oldID;
        PartsIDs(r, parts, outcome, Begin(s, {}), j, k);
      } else {
        var x := if Stays(s, r.oldID, planned, d) then d else WildcardParent(d).value;
        if x in planned {
          AskedSucceeds(parts, p, x);
        }
        assert x in Remove(p.store, r.oldID).domainMap;
      }
    }
  }

  /** A name no order asks for and no new wildcard takes over maps as it did. */
  ghost predicate Untouched(s: Store, p: Progress, x: string) {
    (x in p.store.domainMap <==> x in s.domainMap) && (x in s.domainMap ==> p.store.domainMap[x] == s.domainMap[x])
  }

  /** No order asks for the name, or for a wildcard that would take it over. */
  ghost predicate Ignored(parts: seq<Part>, x: string) {
    forall j, k :: 0 <= j < |parts| && 0 <= k < |parts[j].orders| ==> IgnoredBy(parts[j].orders[k], x)
  }

  predicate IgnoredBy(order: seq<string>, x: string) {
    x !in order && (IsWildcard(x) || !CoveredByWildcard(order, x))
  }

  lemma OrderLeaves(r: Renewing, directory: string, order: seq<string>, outcome: Outcome, p: Progress, s: Store, x: string)
    requires Untouched(s, p, x) && IgnoredBy(order, x)
    ensures Untouched(s, RenewOrder(r, directory, order, outcome, p), x)
  {
    if outcome.Adopted? {
      AdoptMaps(p.store, r.owners, NewCert(r, directory, order, outcome.notAfter));
    }
  }

  lemma {:induction false} PartLeaves(r: Renewing, directory: string, orders: seq<seq<string>>, outcome: nat -> Outcome, p: Progress, s: Store, x: string)
    requires Untouched(s, p, x) && forall k :: 0 <= k < |orders| ==> IgnoredBy(orders[k], x)
    ensures Untouched(s, RenewPart(r, directory, orders, outcome, p).0, x)
  {
    if orders != [] {
      var n := |orders| - 1;
      assert forall k :: 0 <= k < n ==> orders[..n][k] == orders[k];
      PartLeaves(r, directory, orders[..n], outcome, p, s, x);
      var (before, stopped) := RenewPart(r, directory, orders[..n], outcome, p);
      if !stopped {
        OrderLeaves(r, directory, orders[n], outcome(n), before, s, x);
      }
    }
  }

  lemma {:induction false} PartsLeave(r: Renewing, parts: seq<Part>, outcome: (nat, nat) -> Outcome, p: Progress, s: Store, x: string)
    requires Untouched(s, p, x) && Ignored(parts, x)
    ensures Untouched(s, RenewParts(r, parts, outcome, p), x)
  {
    if parts != [] {
      var n := |parts| - 1;
      assert forall j :: 0 <= j < n ==> parts[..n][j] == parts[j];
      PartsLeave(r, parts[..n], outcome, p, s, x);
      PartLeaves(r, parts[n].directory, parts[n].orders, (k: nat) => outcome(n, k), RenewParts(r, parts[..n], outcome, p), s, x);
    }
  }

  function AllAdopted(): (nat, nat) -> Outcome {
    (j: nat, k: nat) => Outcome.Adopted(0)
  }

  /** When every order is adopted, everything is renewed and the new identifiers are the orders' own. */
  lemma {:induction false} PartAdopted(r: Renewing, directory: string, orders: seq<seq<string>>, outcome: nat -> Outcome, p: Progress, id: string)
    requires forall k :: 0 <= k < |orders| ==> outcome(k).Adopted? && SanCertID(r.digest, orders[k]) != id
    requires p.renewedAll && id !in p.newIDs
    ensures var (q, stopped) := RenewPart(r, directory, orders, outcome, p);
            !stopped && q.renewedAll && id !in q.newIDs
  {
    if orders != [] {
      var n := |orders| - 1;
      assert forall k :: 0 <= k < n ==> orders[..n][k] == orders[k];
      PartAdopted(r, directory, orders[..n], outcome, p, id);
    }
  }

  lemma {:induction false} PartsAdopted(r: Renewing, parts: seq<Part>, s: Store)
    requires !Reissued(r, parts)
    ensures var q := RenewParts(r, parts, AllAdopted(), Begin(s, {})); q.renewedAll && r.oldID !in q.newIDs
  {
    if parts != [] {
      var n := |parts| - 1;
      assert forall j :: 0 <= j < n ==> parts[..n][j] == parts[j];
      PartsAdopted(r, parts[..n], s);
      PartAdopted(r, parts[n].directory, parts[n].orders, (k: nat) => AllAdopted()(n, k), RenewParts(r, parts[..n], AllAdopted(), Begin(s, {})), r.oldID);
    }
  }

  /** And a name that does not stay is lost as soon as every order succeeds. */
  lemma DepartingIsLost(r: Renewing, parts: seq<Part>, planned: seq<string>, s: Store, d: string)
    requires forall j, k, x :: 0 <= j < |parts| && 0 <= k < |parts[j].orders| && x in parts[j].orders[k] ==> x in planned
    requires !Reissued(r, parts) && !StaysAnswered(s, r.oldID, planned, d)
    ensures !Answered(Renewed(r, parts, AllAdopted(), s), d)
  {
    var p := RenewParts(r, parts, AllAdopted(), Begin(s, {}));
    PartsAdopted(r, parts, s);
    forall j, k | 0 <= j < |parts| && 0 <= k < |parts[j].orders| ensures IgnoredBy(parts[j].orders[k], d) {
      NotCovered(parts[j].orders[k], planned, s, r.oldID, d);
    }
    PartsLeave(r, parts, AllAdopted(), Begin(s, {}), s, d);
    if WildcardParent(d).Some? {
      var parent := WildcardParent(d).value;
      assert parent[..2] == "*.";
      PartsLeave(r, parts, AllAdopted(), Begin(s, {}), s, parent);
    }
  }

  /** A wildcard that covers a name is the one above it. */
  lemma NotCovered(order: seq<string>, planned: seq<string>, s: Store, oldID: string, d: string)
    requires (forall x :: x in order ==> x in planned) && !StaysAnswered(s, oldID, planned, d)
    ensures IgnoredBy(order, d)
  {
    forall i | 0 <= i < |order| ensures !MatchesWildcard(order[i], d) {
      assert order[i] in order;
    }
  }

  /**
   * Exactly which names a renewal keeps. An answered name stays served whatever
   * becomes of the orders if and only if it, or the wildcard above it, is planned
   * or belongs to another certificate -- or the old certificate is reissued as it
   * was.
   */
  lemma RenewalKeepsIff(r: Renewing, g: Setting, planned: seq<string>, s: Store, d: string)
    requires ValidStore(s) && r.oldID == g.cert.identifier && Answered(s, d)
    requires Compatible(r, s, AllOrders(PlanParts(g.solvers, g.directoryOf, planned)))
    requires Decide(s, r.owners, g.cert, g.held, g.unreachable, g.now).Proceed?
    ensures (forall outcome :: Served(StoreAfter(r, g, planned, outcome, s), d)) <==>
            Reissued(r, PlanParts(g.solvers, g.directoryOf, planned)) || StaysAnswered(s, r.oldID, planned, d)
  {
    var parts := PlanParts(g.solvers, g.directoryOf, planned);
    if Reissued(r, parts) || StaysAnswered(s, r.oldID, planned, d) {
      forall outcome: (nat, nat) -> Outcome ensures Served(StoreAfter(r, g, planned, outcome, s), d) {
        KeptUnder(r, g, planned, outcome, s, d);
      }
    } else {
      LostUnder(r, g, planned, s, d);
    }
  }

  lemma AllAsked(g: Setting, planned: seq<string>)
    ensures forall x :: x in planned ==> Asked(PlanParts(g.solvers, g.directoryOf, planned), x)
  {
    forall x | x in planned ensures Asked(PlanParts(g.solvers, g.directoryOf, planned), x) {
      PlannedIsAsked(g.solvers, g.directoryOf, planned, x);
    }
  }

  lemma KeptUnder(r: Renewing, g: Setting, planned: seq<string>, outcome: (nat, nat) -> Outcome, s: Store, d: string)
    requires ValidStore(s) && r.oldID == g.cert.identifier && Answered(s, d)
    requires Compatible(r, s, AllOrders(PlanParts(g.solvers, g.directoryOf, planned)))
    requires Decide(s, r.owners, g.cert, g.held, g.unreachable, g.now).Proceed?
    requires Reissued(r, PlanParts(g.solvers, g.directoryOf, planned)) || StaysAnswered(s, r.oldID, planned, d)
    ensures Served(StoreAfter(r, g, planned, outcome, s), d)
  {
    var parts := PlanParts(g.solvers, g.directoryOf, planned);
    AllAsked(g, planned);
    StayingIsKept(r, parts, planned, outcome, s, d);
    StoreAfterValid(r, g, planned, outcome, s);
    ProceedMeans(r, g, planned, outcome, s);
    AnsweredIsServed(Renewed(r, parts, outcome, s), d);
  }

  lemma LostUnder(r: Renewing, g: Setting, planned: seq<string>, s: Store, d: string)
    requires ValidStore(s) && r.oldID == g.cert.identifier
    requires Compatible(r, s, AllOrders(PlanParts(g.solvers, g.directoryOf, planned)))
    requires Decide(s, r.owners, g.cert, g.held, g.unreachable, g.now).Proceed?
    requires !Reissued(r, PlanParts(g.solvers, g.directoryOf, planned)) && !StaysAnswered(s, r.oldID, planned, d)
    ensures !Served(StoreAfter(r, g, planned, AllAdopted(), s), d)
  {
    var parts := PlanParts(g.solvers, g.directoryOf, planned);
    forall j, k, x | 0 <= j < |parts| && 0 <= k < |parts[j].orders| && x in parts[j].orders[k] ensures x in planned {
      AskedIsPlanned(g.solvers, g.directoryOf, planned, j, k, x);
    }
    DepartingIsLost(r, parts, planned, s, d);
    StoreAfterValid(r, g, planned, AllAdopted(), s);
    ProceedMeans(r, g, planned, AllAdopted(), s);
    NotAnsweredNotServed(Renewed(r, parts, AllAdopted(), s), d);
  }

  /** A wildcard is always planned as itself. */
  lemma WildcardPlannedAsItself(g: Setting, w: string)
    requires IsWildcard(w)
    ensures PlanIdentifier(g.solvers, g.prefer, g.held, w) == w
  {
  }

  /** An identifier is a name planned as itself, or a wildcard. */
  lemma PlannedKind(g: Setting, e: string, x: string)
    requires x == PlanIdentifier(g.solvers, g.prefer, g.held, e)
    ensures x == e || IsWildcard(x)
  {
    if x != e {
      SameTail(ZoneOf(g.solvers.selection, e), "");
    }
  }

  /** For a renewed name, staying is collapsing safely or having the wildcard above it stay. */
  lemma StaysIffSafe(r: Renewing, g: Setting, batch: seq<string>, planned: seq<string>, s: Store, d: string)
    requires PlannedFrom(g, [d], batch, planned) && d in s.domainMap && s.domainMap[d] == r.oldID
    ensures StaysAnswered(s, r.oldID, planned, d) <==>
            CollapsesSafely(g, d) || (WildcardParent(d).Some? && Stays(s, r.oldID, planned, WildcardParent(d).value))
  {
    var x := PlanIdentifier(g.solvers, g.prefer, g.held, d);
    assert d in [d];
    assert x in planned;
    if CollapsesSafely(g, d) {
      PlanCovers(g, d, x);
    }
    if d in planned {
      var e :| e in batch && d == PlanIdentifier(g.solvers, g.prefer, g.held, e);
      PlannedKind(g, e, d);
      if IsWildcard(d) {
        WildcardPlannedAsItself(g, d);
      }
    }
  }

  /**
   * So a renewable name that is not blocked stays served whatever the outcomes if
   * and only if it collapses safely, or the wildcard above it is planned or is
   * another certificate's, or the old certificate is reissued as it was.
   */
  lemma RenewableKeptIff(r: Renewing, g: Setting, batch: seq<string>, planned: seq<string>, s: Store, d: string)
    requires ValidStore(s) && r.oldID == g.cert.identifier
    requires Compatible(r, s, AllOrders(PlanParts(g.solvers, g.directoryOf, planned)))
    requires Decide(s, r.owners, g.cert, g.held, g.unreachable, g.now).Proceed?
    requires PlannedFrom(g, Decide(s, r.owners, g.cert, g.held, g.unreachable, g.now).domains, batch, planned)
    requires d in RenewableDomains(s, r.owners, g.cert) && !Blocked(g, d)
    ensures (forall outcome :: Served(StoreAfter(r, g, planned, outcome, s), d)) <==>
            || CollapsesSafely(g, d)
            || (WildcardParent(d).Some? && Stays(s, r.oldID, planned, WildcardParent(d).value))
            || Reissued(r, PlanParts(g.solvers, g.directoryOf, planned))
  {
    LeftOutOnlyLate(s, r.owners, g.cert, g.held, g.unreachable, g.now);
    StaysIffSafe(r, g, batch, planned, s, d);
    RenewalKeepsIff(r, g, planned, s, d);
  }

  /** Left behind by its own plan: a wildcard that misses it is ordered, nothing above it stays, and the old certificate is not reissued. */
  ghost predicate LeftBehind(r: Renewing, g: Setting, planned: seq<string>, s: Store, d: string) {
    && !CollapsesSafely(g, d) && !Reissued(r, PlanParts(g.solvers, g.directoryOf, planned))
    && !(WildcardParent(d).Some? && Stays(s, r.oldID, planned, WildcardParent(d).value))
  }

  /**
   * Whatever subset of the orders is adopted, accepted only, refused or limited,
   * every renewable name is served by a stored certificate that covers it, unless
   * it was quarantined or unreachable with expiry inside the compaction window, or
   * its own plan leaves it behind.
   */
  lemma RenewalKeepsCoverage(r: Renewing, g: Setting, batch: seq<string>, planned: seq<string>, outcome: (nat, nat) -> Outcome, s: Store, d: string)
    requires ValidStore(s) && r.oldID == g.cert.identifier
    requires Compatible(r, s, AllOrders(PlanParts(g.solvers, g.directoryOf, planned)))
    requires var decision := Decide(s, r.owners, g.cert, g.held, g.unreachable, g.now);
             decision.Proceed? ==> PlannedFrom(g, decision.domains, batch, planned)
    requires d in RenewableDomains(s, r.owners, g.cert)
    ensures || Served(StoreAfter(r, g, planned, outcome, s), d)
            || (Blocked(g, d) && g.cert.notAfter - g.now <= CompactionWindow(r.owners, RenewableDomains(s, r.owners, g.cert)))
            || LeftBehind(r, g, planned, s, d)
  {
    var decision := Decide(s, r.owners, g.cert, g.held, g.unreachable, g.now);
    if !decision.Proceed? {
      DeferredUnchanged(r, g, planned, outcome, s, d);
    } else if Blocked(g, d) {
      BlockedIsLate(r, g, s, d);
    } else if !LeftBehind(r, g, planned, s, d) {
      RenewableKeptIff(r, g, batch, planned, s, d);
    }
  }

  lemma DeferredUnchanged(r: Renewing, g: Setting, planned: seq<string>, outcome: (nat, nat) -> Outcome, s: Store, d: string)
    requires ValidStore(s) && d in RenewableDomains(s, r.owners, g.cert)
    requires !Decide(s, r.owners, g.cert, g.held, g.unreachable, g.now).Proceed?
    ensures Served(StoreAfter(r, g, planned, outcome, s), d)
  {
    assert RenewableDomains(s, r.owners, g.cert) != [];
    AnsweredIsServed(s, d);
  }

  lemma BlockedIsLate(r: Renewing, g: Setting, s: Store, d: string)
    requires Decide(s, r.owners, g.cert, g.held, g.unreachable, g.now).Proceed?
    requires d in RenewableDomains(s, r.owners, g.cert) && Blocked(g, d)
    ensures g.cert.notAfter - g.now <= CompactionWindow(r.owners, RenewableDomains(s, r.owners, g.cert))
  {
    LeftOutOnlyLate(s, r.owners, g.cert, g.held, g.unreachable, g.now);
  }

  lemma RetainedIff(s: Store, g: Setting)
    ensures Retained(s, g) <==> g.now < g.cert.notAfter && exists x :: x in g.cert.domains && x in s.domainMap && s.domainMap[x] == g.cert.identifier
  {
    if x :| x in g.cert.domains && x in s.domainMap && s.domainMap[x] == g.cert.identifier {
      var i :| 0 <= i < |g.cert.domains| && g.cert.domains[i] == x;
    }
  }

  /** Retiring keeps an answered name exactly when the certificate is retained or the name has another one. */
  lemma RetireKeepsIff(r: Renewing, g: Setting, planned: seq<string>, outcome: (nat, nat) -> Outcome, s: Store, d: string)
    requires ValidStore(s) && Answered(s, d)
    requires Decide(s, r.owners, g.cert, g.held, g.unreachable, g.now).Retire?
    ensures Served(StoreAfter(r, g, planned, outcome, s), d) <==>
            || (g.now < g.cert.notAfter && exists x :: x in g.cert.domains && x in s.domainMap && s.domainMap[x] == g.cert.identifier)
            || StaysAnswered(s, g.cert.identifier, [], d)
  {
    RetainedIff(s, g);
    RemoveValid(s, g.cert.identifier);
    var after := StoreAfter(r, g, planned, outcome, s);
    if Answered(after, d) {
      AnsweredIsServed(after, d);
    } else if Served(after, d) {
      ServedIsAnswered(after, d);
    }
  }

  // ---- The loss at an input ----

  lemma SingleGroup(x: string, keyOf: string -> string)
    ensures KeysInOrder([x], keyOf) == [keyOf(x)] && Members([x], keyOf, keyOf(x)) == [x] && GroupBy([x], keyOf) == [[x]]
  {
    assert [x][..0] == [];
    assert KeysInOrder<string, string>([], keyOf) == [] && Members([], keyOf, keyOf(x)) == [];
  }

  /** One planned identifier is one order of one directory. */
  lemma SinglePart(sv: Solvers, directoryOf: string -> string, x: string)
    requires HasZones(sv)
    ensures PlanParts(sv, directoryOf, [x]) == [Part(directoryOf(x), [[x]])]
    ensures AllOrders(PlanParts(sv, directoryOf, [x])) == [[x]]
  {
    SingleGroup(x, directoryOf);
    var n := NamingOf(sv);
    SingleGroup(x, (d: string) => PartitionKey(n, Anchors(n, [x]), d));
    var parts := PlanParts(sv, directoryOf, [x]);
    assert parts == [Part(directoryOf(x), [[x]])];
    assert parts[..0] == [] && AllOrders(parts[..0]) == [];
  }

  /** One host, its own certificate, and the mapped zone it is written in another case than. */
  function LoneSetting(sv: Solvers, cert: Cert): Setting {
    Setting(sv, true, _ => false, _ => false, _ => "", cert, cert.notAfter)
  }

  lemma LoneDecision(s: Store, o: Owners, g: Setting, d: string)
    requires g.cert.domains == [d] && Renewable(s, o, g.cert, d) && !Blocked(g, d)
    ensures RenewableDomains(s, o, g.cert) == [d]
    ensures Decide(s, o, g.cert, g.held, g.unreachable, g.now) == Proceed([d])
  {
    KeepOne(d, (x: string) => Renewable(s, o, g.cert, x));
    DecideOne(s, o, g.cert, g.held, g.unreachable, g.now, d);
  }

  lemma DecideOne(s: Store, o: Owners, cert: Cert, held: string -> bool, unreachable: string -> bool, now: int, d: string)
    requires RenewableDomains(s, o, cert) == [d] && !held(d) && !unreachable(d)
    ensures Decide(s, o, cert, held, unreachable, now) == Proceed([d])
  {
    KeepOne(d, (x: string) => !held(x));
    KeepOne(d, (x: string) => !unreachable(x));
  }

  lemma KeepOne(d: string, keep: string -> bool)
    requires keep(d)
    ensures Keep([d], keep) == [d]
  {
    assert [d][..0] == [] && Keep([], keep) == [];
  }

  /** The only clash there could be is ruled out, and nothing is reissued. */
  lemma LoneCompatible(r: Renewing, s: Store, cert: Cert, d: string, x: string)
    requires HexDigests(r.digest) && r.digest([d]) != r.digest([x])
    requires cert.identifier == SanCertID(r.digest, [d]) && s.certs == map[cert.identifier := cert] && r.oldID == cert.identifier
    ensures Compatible(r, s, [[x]]) && SanCertID(r.digest, [x]) != r.oldID
  {
    DifferentIDs(r.digest, [d], [x]);
    SanDirectories(r.digest, [d], [x]);
  }

  lemma DifferentIDs(digest: seq<string> -> string, a: seq<string>, b: seq<string>)
    requires digest(a) != digest(b)
    ensures SanCertID(digest, a) != SanCertID(digest, b)
  {
    assert SanCertID(digest, a)[4..] == digest(a) && SanCertID(digest, b)[4..] == digest(b);
  }

  /** A renewal that goes ahead for a renewable, unblocked name, and under which it is lost. */
  ghost predicate LosesName(r: Renewing, g: Setting, planned: seq<string>, s: Store, d: string) {
    && ValidStore(s) && Served(s, d)
    && Decide(s, r.owners, g.cert, g.held, g.unreachable, g.now) == Proceed([d])
    && PlannedFrom(g, [d], [d], planned) && d in RenewableDomains(s, r.owners, g.cert) && !Blocked(g, d)
    && !Served(StoreAfter(r, g, planned, AllAdopted(), s), d)
  }

  /** A lone host planned into an identifier that leaves it behind. */
  lemma LoneHostIsLost(r: Renewing, g: Setting, s: Store, d: string, x: string)
    requires g.cert == Cert(SanCertID(r.digest, [d]), [d], 0, "") && g == LoneSetting(g.solvers, g.cert) && HasZones(g.solvers)
    requires HexDigests(r.digest) && r.digest([d]) != r.digest([x]) && r.oldID == g.cert.identifier
    requires s == Store(map[r.oldID := g.cert], map[d := r.oldID]) && DomainAllowed(r.owners, d)
    requires PlannedFrom(g, [d], [d], [x]) && !StaysAnswered(s, r.oldID, [x], d)
    ensures LosesName(r, g, [x], s, d)
  {
    LoneStore(r.digest, s, g.cert, d);
    LoneDecision(s, r.owners, g, d);
    LoneCompatible(r, s, g.cert, d, x);
    SinglePart(g.solvers, g.directoryOf, x);
    assert !Reissued(r, PlanParts(g.solvers, g.directoryOf, [x]));
    LostUnder(r, g, [x], s, d);
  }

  /**
   * The failing family is inhabited: a deploy host "x.A.io" under the mapped zone
   * "a.io", certified and due, is planned as "*.a.io"; that order succeeds, the old
   * certificate goes, and nothing answers for the host.
   */
  lemma MixedCaseHostIsLost(d: string, zone: string, x: string, r: Renewing, g: Setting, s: Store)
    requires d == "x.A.io" && zone == "a.io" && x == "*." + zone
    requires HexDigests(r.digest) && r.digest([d]) != r.digest([x])
    requires g == LoneSetting(Solvers(Selection("", map[zone := "p"]), false, {"p"}), Cert(SanCertID(r.digest, [d]), [d], 0, ""))
    requires r.oldID == g.cert.identifier && r.owners == Owners(map[d := "web"], map[], map[], map[], "")
    requires s == Store(map[r.oldID := g.cert], map[d := r.oldID])
    ensures LosesName(r, g, [x], s, d)
  {
    MixedCaseConcrete(d, r.owners);
    MixedCasePlanned(g, d, zone, x);
    MixedCaseDeparts(s, r.oldID, d, x);
    assert zone in g.solvers.selection.zones;
    LoneHostIsLost(r, g, s, d, x);
  }

  lemma MixedCaseConcrete(d: string, o: Owners)
    requires d == "x.A.io" && d in o.registered
    ensures DomainAllowed(o, d)
  {
    assert d[..2] == "x.";
  }

  lemma LoneStore(digest: seq<string> -> string, s: Store, cert: Cert, d: string)
    requires HexDigests(digest) && cert.identifier == SanCertID(digest, [d]) && cert.domains == [d]
    requires s == Store(map[cert.identifier := cert], map[d := cert.identifier])
    ensures ValidStore(s) && Served(s, d)
  {
    SanDirectories(digest, [d], [d]);
    assert [d][0] == d;
    assert IdentifiersCover([d], d);
  }

  lemma MixedCasePlanned(g: Setting, d: string, zone: string, x: string)
    requires d == "x.A.io" && zone == "a.io" && x == "*." + zone
    requires g.solvers == Solvers(Selection("", map[zone := "p"]), false, {"p"}) && g.prefer && !g.held(x)
    ensures PlannedFrom(g, [d], [d], [x])
  {
    MixedCaseMaps(g.solvers, d, zone, x);
    assert PlanIdentifier(g.solvers, g.prefer, g.held, d) == x;
    assert d in [d];
  }

  lemma MixedCaseDeparts(s: Store, oldID: string, d: string, x: string)
    requires d == "x.A.io" && x == "*." + "a.io" && s.domainMap == map[d := oldID]
    ensures !StaysAnswered(s, oldID, [x], d)
  {
    IndexOfIs(d, '.', 1);
    ParentAt(d, 1);
    var parent := "*." + d[2..];
    assert parent[2] == 'A' && x[2] == 'a' && d[0] == 'x' && parent[0] == '*' && x[0] == '*';
  }
}
