/**
 * Renewing a certificate: which of its names are renewed now, the orders they
 * split into, and what the manager's maps hold afterwards whatever subset of
 * those orders succeeds.
 */
module Renewal {
  import opened Text
  import opened Names
  import opened Manager
  import opened CertManager
  import Issuer
  import FailureHandling
  import Quarantine

  const WEEK := 7 * DAY

  // ---- Which names are renewed now ----

  predicate Concrete(o: Owners, d: string) {
    d in o.registered || d in o.dynamic
  }

  /** Registered or dynamic; a wildcard by way of a name it covers. */
  predicate DomainAllowed(o: Owners, d: string) {
    if IsWildcard(d) then exists x :: x in o.registered.Keys + o.dynamic.Keys && MatchesWildcard(d, x) else Concrete(o, d)
  }

  predicate CoversRegistered(o: Owners, d: string) {
    if IsWildcard(d) then exists x :: x in o.registered && MatchesWildcard(d, x) else d in o.registered
  }

  predicate Renewable(s: Store, o: Owners, cert: Cert, d: string) {
    DomainAllowed(o, d) && d in s.domainMap && s.domainMap[d] == cert.identifier
  }

  function Keep(domains: seq<string>, keep: string -> bool): (kept: seq<string>)
    ensures forall d :: d in kept <==> d in domains && keep(d)
  {
    if domains == [] then [] else
      assert domains == domains[..|domains| - 1] + [domains[|domains| - 1]];
      var before := Keep(domains[..|domains| - 1], keep);
      if keep(domains[|domains| - 1]) then before + [domains[|domains| - 1]] else before
  }

  function RenewableDomains(s: Store, o: Owners, cert: Cert): seq<string> {
    Keep(cert.domains, (d: string) => Renewable(s, o, cert, d))
  }

  /** Certificates covering an operator's own hosts stop waiting a week earlier. */
  function CompactionWindow(o: Owners, domains: seq<string>): int {
    if exists i :: 0 <= i < |domains| && CoversRegistered(o, domains[i]) then 2 * WEEK else WEEK
  }

  datatype Decision = Retire | Defer | Proceed(domains: seq<string>)

  /** `held` are the quarantined names, `unreachable` those failing their probe. */
  function Decide(s: Store, o: Owners, cert: Cert, held: string -> bool, unreachable: string -> bool, now: int): Decision {
    var allowed := RenewableDomains(s, o, cert);
    var open := Keep(allowed, (d: string) => !held(d));
    var reachable := Keep(open, (d: string) => !unreachable(d));
    var early := cert.notAfter - now > CompactionWindow(o, allowed);
    if allowed == [] then Retire
    else if open == [] || (early && |open| < |allowed|) then Defer
    else if reachable == [] || (early && |reachable| < |open|) then Defer
    else Proceed(reachable)
  }

  lemma {:induction false} KeepAll(domains: seq<string>, keep: string -> bool)
    ensures |Keep(domains, keep)| <= |domains|
    ensures |Keep(domains, keep)| == |domains| <==> Keep(domains, keep) == domains
  {
    if domains != [] {
      KeepAll(domains[..|domains| - 1], keep);
      assert domains == domains[..|domains| - 1] + [domains[|domains| - 1]];
    }
  }

  /** A renewable name is left out of a renewal exactly when it is blocked, and then only inside the compaction window. */
  lemma LeftOutOnlyLate(s: Store, o: Owners, cert: Cert, held: string -> bool, unreachable: string -> bool, now: int)
    requires Decide(s, o, cert, held, unreachable, now).Proceed?
    ensures var domains := Decide(s, o, cert, held, unreachable, now).domains;
            var allowed := RenewableDomains(s, o, cert);
            && (forall d :: d in domains <==> d in allowed && !held(d) && !unreachable(d))
            && (domains != allowed ==> cert.notAfter - now <= CompactionWindow(o, allowed))
  {
    var allowed := RenewableDomains(s, o, cert);
    var open := Keep(allowed, (d: string) => !held(d));
    KeepAll(allowed, (d: string) => !held(d));
    KeepAll(open, (d: string) => !unreachable(d));
  }

  // ---- When each decision is taken, in the owners' own terms ----

  /** Some host of these is the name, or one label below it. */
  ghost predicate OneOf(hosts: set<string>, d: string) {
    if IsWildcard(d) then exists x :: x in hosts && MatchesWildcard(d, x) else d in hosts
  }

  /** A name of the certificate that is still somebody's and still answered by it. */
  ghost predicate Due(s: Store, o: Owners, cert: Cert, d: string) {
    && d in cert.domains && d in s.domainMap && s.domainMap[d] == cert.identifier
    && OneOf(o.registered.Keys + o.dynamic.Keys, d)
  }

  /** How long before expiry a renewal stops waiting for blocked names: two weeks for a host of the operator's own, else one. */
  ghost function Patience(s: Store, o: Owners, cert: Cert): int {
    if exists d :: Due(s, o, cert, d) && OneOf(o.registered.Keys, d) then 14 * 24 * 60 * 60 else 7 * 24 * 60 * 60
  }

  lemma DueIff(s: Store, o: Owners, cert: Cert, d: string)
    ensures d in RenewableDomains(s, o, cert) <==> Due(s, o, cert, d)
  {
    assert DomainAllowed(o, d) <==> OneOf(o.registered.Keys + o.dynamic.Keys, d);
  }

  lemma PatienceIs(s: Store, o: Owners, cert: Cert)
    ensures CompactionWindow(o, RenewableDomains(s, o, cert)) == Patience(s, o, cert)
  {
    var allowed := RenewableDomains(s, o, cert);
    forall d ensures d in allowed <==> Due(s, o, cert, d) {
      DueIff(s, o, cert, d);
    }
    forall d ensures CoversRegistered(o, d) <==> OneOf(o.registered.Keys, d) { }
    if exists d :: Due(s, o, cert, d) && OneOf(o.registered.Keys, d) {
      var d :| Due(s, o, cert, d) && OneOf(o.registered.Keys, d);
      var i :| 0 <= i < |allowed| && allowed[i] == d;
      assert CoversRegistered(o, allowed[i]);
    }
  }

  /** A filter drops something exactly when something fails it. */
  lemma KeepDropsIff(domains: seq<string>, keep: string -> bool)
    ensures |Keep(domains, keep)| < |domains| <==> exists d :: d in domains && !keep(d)
    ensures Keep(domains, keep) == [] <==> forall d :: d in domains ==> !keep(d)
  {
    KeepAll(domains, keep);
    var kept := Keep(domains, keep);
    if |kept| < |domains| {
      if forall d :: d in domains ==> keep(d) {
        KeepsEverything(domains, keep);
      }
    }
    if kept != [] {
      assert kept[0] in kept;
    }
  }

  lemma {:induction false} KeepsEverything(domains: seq<string>, keep: string -> bool)
    requires forall d :: d in domains ==> keep(d)
    ensures Keep(domains, keep) == domains
  {
    if domains != [] {
      var front, last := domains[..|domains| - 1], domains[|domains| - 1];
      assert domains == front + [last];
      KeepsEverything(front, keep);
    }
  }

  /**
   * A certificate is retired exactly when none of its names is due. It is renewed
   * now exactly when a due name is neither quarantined nor unreachable, and no due
   * name is either or expiry is near enough; with what is renewed being the due
   * names that are neither. Otherwise it waits.
   */
  lemma DecideIff(s: Store, o: Owners, cert: Cert, held: string -> bool, unreachable: string -> bool, now: int)
    ensures var decision := Decide(s, o, cert, held, unreachable, now);
            && (decision.Retire? <==> forall d :: !Due(s, o, cert, d))
            && (decision.Proceed? <==>
                && (exists d :: Due(s, o, cert, d) && !held(d) && !unreachable(d))
                && (cert.notAfter - now <= Patience(s, o, cert) || forall d :: Due(s, o, cert, d) ==> !held(d) && !unreachable(d)))
            && (decision.Proceed? ==> forall d :: d in decision.domains <==> Due(s, o, cert, d) && !held(d) && !unreachable(d))
  {
    var allowed := RenewableDomains(s, o, cert);
    forall d ensures d in allowed <==> Due(s, o, cert, d) {
      DueIff(s, o, cert, d);
    }
    PatienceIs(s, o, cert);
    var open, reachable := Unblocked(allowed, held, unreachable);
    DecideOnLists(s, o, cert, held, unreachable, now, allowed, open, reachable);
  }

  /** What the two filters leave, and when they leave everything or nothing. */
  lemma Unblocked(allowed: seq<string>, held: string -> bool, unreachable: string -> bool) returns (open: seq<string>, reachable: seq<string>)
    ensures open == Keep(allowed, (d: string) => !held(d)) && reachable == Keep(open, (d: string) => !unreachable(d))
    ensures allowed == [] <==> forall d :: d !in allowed
    ensures forall d :: d in reachable <==> d in allowed && !held(d) && !unreachable(d)
    ensures reachable != [] <==> exists d :: d in allowed && !held(d) && !unreachable(d)
    ensures |open| == |allowed| && |reachable| == |open| <==> forall d :: d in allowed ==> !held(d) && !unreachable(d)
  {
    open := Keep(allowed, (d: string) => !held(d));
    reachable := Keep(open, (d: string) => !unreachable(d));
    KeepDropsIff(allowed, (d: string) => !held(d));
    KeepDropsIff(open, (d: string) => !unreachable(d));
    KeepAll(allowed, (d: string) => !held(d));
    KeepAll(open, (d: string) => !unreachable(d));
    if allowed != [] {
      assert allowed[0] in allowed;
    }
  }

  /** The decision in terms of the three lists. */
  lemma DecideOnLists(s: Store, o: Owners, cert: Cert, held: string -> bool, unreachable: string -> bool, now: int,
                      allowed: seq<string>, open: seq<string>, reachable: seq<string>)
    requires allowed == RenewableDomains(s, o, cert) && open == Keep(allowed, (d: string) => !held(d))
    requires reachable == Keep(open, (d: string) => !unreachable(d))
    ensures var decision := Decide(s, o, cert, held, unreachable, now);
            var late := cert.notAfter - now <= CompactionWindow(o, allowed);
            && (decision.Retire? <==> allowed == [])
            && (decision.Proceed? <==> reachable != [] && (late || (|open| == |allowed| && |reachable| == |open|)))
            && (decision.Proceed? ==> decision.domains == reachable)
  {
    KeepAll(allowed, (d: string) => !held(d));
    KeepAll(open, (d: string) => !unreachable(d));
  }

  // ---- The orders and their outcomes ----

  /** What became of one partition's order. */
  datatype Outcome =
    | Adopted(notAfter: int)
    | AcceptedOnly                       // the CA accepted the order but the certificate could not be adopted
    | Aborted                            // no token, or shutting down: nothing is held against anyone
    | Failed(listed: string -> bool, unreachable: string -> bool)
    | RateLimited(named: seq<string>, retryAfter: Option<nat>)

  /** A rate limit that names no member of the order dooms the directory's account. */
  predicate AccountLimited(order: seq<string>, outcome: Outcome) {
    outcome.RateLimited? && FailureHandling.Limited(outcome.named, order) == []
  }

  /** Whom a refused order is held against. */
  function Blamed(order: seq<string>, outcome: Outcome): seq<string> {
    match outcome
    case Failed(listed, unreachable) => FailureHandling.IdentifyFailed(Keep(order, listed), Keep(order, unreachable), order)
    case RateLimited(named, _) => if AccountLimited(order, outcome) then order else FailureHandling.Limited(named, order)
    case _ => []
  }

  /** The names on hold after an order: success clears its identifiers, refusal holds the blamed. */
  function HeldAfter(held: set<string>, order: seq<string>, outcome: Outcome): set<string> {
    if outcome.Adopted? then held - Issuer.Elements(order) else held + Issuer.Elements(Blamed(order, outcome))
  }

  /** One directory's share of a renewal, already split into orders. */
  datatype Part = Part(directory: string, orders: seq<seq<string>>)

  datatype Sent = Sent(directory: string, marked: bool, accepted: bool)

  datatype Progress = Progress(store: Store, renewedAll: bool, markerSpent: bool, newIDs: seq<string>, sent: seq<Sent>, held: set<string>)

  /** What stays the same while one certificate is renewed. */
  datatype Renewing = Renewing(digest: seq<string> -> string, owners: Owners, oldID: string, recorded: string, hasMarker: bool)

  function NewCert(r: Renewing, directory: string, order: seq<string>, notAfter: int): Cert {
    Cert(SanCertID(r.digest, order), order, notAfter, directory)
  }

  function RenewOrder(r: Renewing, directory: string, order: seq<string>, outcome: Outcome, p: Progress): Progress {
    var marked := r.hasMarker && !p.markerSpent && directory == r.recorded;
    var accepted := outcome.Adopted? || outcome.AcceptedOnly?;
    var q := p.(markerSpent := p.markerSpent || (marked && accepted), sent := p.sent + [Sent(directory, marked, accepted)],
                held := HeldAfter(p.held, order, outcome));
    if outcome.Adopted? then
      var cert := NewCert(r, directory, order, outcome.notAfter);
      q.(store := Adopt(p.store, r.owners, cert), newIDs := p.newIDs + [cert.identifier])
    else q.(renewedAll := false)
  }

  /** A directory's orders in turn; after an account limit the rest are held instead of sent. */
  function RenewPart(r: Renewing, directory: string, orders: seq<seq<string>>, outcome: nat -> Outcome, p: Progress): (Progress, bool) {
    if orders == [] then (p, false) else
      var n := |orders| - 1;
      var (q, stopped) := RenewPart(r, directory, orders[..n], outcome, p);
      if stopped then (q.(held := q.held + Issuer.Elements(orders[n])), true)
      else (RenewOrder(r, directory, orders[n], outcome(n), q), AccountLimited(orders[n], outcome(n)))
  }

  function RenewParts(r: Renewing, parts: seq<Part>, outcome: (nat, nat) -> Outcome, p: Progress): Progress {
    if parts == [] then p else
      var n := |parts| - 1;
      var q := RenewParts(r, parts[..n], outcome, p);
      RenewPart(r, parts[n].directory, parts[n].orders, (k: nat) => outcome(n, k), q).0
  }

  function Begin(s: Store, held: set<string>): Progress {
    Progress(s, true, false, [], [], held)
  }

  /** The store after a renewal: the old certificate is removed if all orders were adopted and none of them is it. */
  function Renewed(r: Renewing, parts: seq<Part>, outcome: (nat, nat) -> Outcome, s: Store): Store {
    var p := RenewParts(r, parts, outcome, Begin(s, {}));
    if p.renewedAll && r.oldID !in p.newIDs then Remove(p.store, r.oldID) else p.store
  }

  // ---- Coverage through the orders ----

  /** A name already mapped stays mapped, to what it was or to a new certificate. */
  ghost predicate MappingsKept(s: Store, p: Progress) {
    forall d :: d in s.domainMap ==>
      d in p.store.domainMap && (p.store.domainMap[d] == s.domainMap[d] || p.store.domainMap[d] in p.newIDs)
  }

  ghost predicate Successor(p: Progress, x: string) {
    x in p.store.domainMap && p.store.domainMap[x] in p.newIDs
  }

  ghost predicate AllSucceeded(p: Progress, order: seq<string>) {
    forall i :: 0 <= i < |order| ==> Successor(p, order[i])
  }

  /** If everything so far was renewed, every name of every order so far maps to a new certificate. */
  ghost predicate OrdersSucceeded(p: Progress, orders: seq<seq<string>>) {
    p.renewedAll ==> forall k :: 0 <= k < |orders| ==> AllSucceeded(p, orders[k])
  }

  /** Later progress: successors stay successors, and a failure is never forgotten. */
  ghost predicate Later(p: Progress, q: Progress) {
    (forall x :: Successor(p, x) ==> Successor(q, x)) && (q.renewedAll ==> p.renewedAll)
  }

  lemma LaterTransitive(p: Progress, q: Progress, t: Progress)
    requires Later(p, q) && Later(q, t)
    ensures Later(p, t)
  {
  }

  lemma OrderStep(r: Renewing, directory: string, order: seq<string>, outcome: Outcome, p: Progress, s: Store)
    requires MappingsKept(s, p)
    ensures var q := RenewOrder(r, directory, order, outcome, p);
            MappingsKept(s, q) && Later(p, q) && (q.renewedAll ==> AllSucceeded(q, order))
  {
    if outcome.Adopted? {
      AdoptMaps(p.store, r.owners, NewCert(r, directory, order, outcome.notAfter));
    }
  }

  lemma StillSucceeded(p: Progress, q: Progress, orders: seq<seq<string>>)
    requires Later(p, q) && OrdersSucceeded(p, orders)
    ensures OrdersSucceeded(q, orders)
  {
    if q.renewedAll {
      forall k | 0 <= k < |orders| ensures AllSucceeded(q, orders[k]) {
        assert AllSucceeded(p, orders[k]);
      }
    }
  }

  lemma OneMoreSucceeded(q: Progress, orders: seq<seq<string>>, n: nat)
    requires |orders| == n + 1 && OrdersSucceeded(q, orders[..n]) && (q.renewedAll ==> AllSucceeded(q, orders[n]))
    ensures OrdersSucceeded(q, orders)
  {
    assert forall k :: 0 <= k < n ==> orders[..n][k] == orders[k];
  }

  lemma {:induction false} PartFolds(r: Renewing, directory: string, orders: seq<seq<string>>, outcome: nat -> Outcome, p: Progress, s: Store)
    requires MappingsKept(s, p)
    ensures var (q, stopped) := RenewPart(r, directory, orders, outcome, p);
            MappingsKept(s, q) && Later(p, q) && (stopped ==> !q.renewedAll) && OrdersSucceeded(q, orders)
  {
    if orders != [] {
      var n := |orders| - 1;
      PartFolds(r, directory, orders[..n], outcome, p, s);
      var (before, stopped) := RenewPart(r, directory, orders[..n], outcome, p);
      if !stopped {
        var q := RenewOrder(r, directory, orders[n], outcome(n), before);
        OrderStep(r, directory, orders[n], outcome(n), before, s);
        LaterTransitive(p, before, q);
        StillSucceeded(before, q, orders[..n]);
        OneMoreSucceeded(q, orders, n);
      } else {
        var q := before.(held := before.held + Issuer.Elements(orders[n]));
        assert !q.renewedAll;
      }
    }
  }

  lemma {:induction false} PartsFold(r: Renewing, parts: seq<Part>, outcome: (nat, nat) -> Outcome, p: Progress, s: Store)
    requires MappingsKept(s, p)
    ensures var q := RenewParts(r, parts, outcome, p);
            MappingsKept(s, q) && forall j :: 0 <= j < |parts| ==> OrdersSucceeded(q, parts[j].orders)
  {
    if parts != [] {
      var n := |parts| - 1;
      PartsFold(r, parts[..n], outcome, p, s);
      var before := RenewParts(r, parts[..n], outcome, p);
      var q := RenewParts(r, parts, outcome, p);
      PartFolds(r, parts[n].directory, parts[n].orders, (k: nat) => outcome(n, k), before, s);
      forall j | 0 <= j < |parts| ensures OrdersSucceeded(q, parts[j].orders) {
        if j < n {
          assert parts[..n][j] == parts[j];
          StillSucceeded(before, q, parts[j].orders);
        }
      }
    }
  }

  /** An identifier one of the orders asks for. */
  ghost predicate Asked(parts: seq<Part>, x: string) {
    exists j, k :: 0 <= j < |parts| && 0 <= k < |parts[j].orders| && x in parts[j].orders[k]
  }

  /** Whatever the outcomes: a mapped identifier that was asked for, or belonged to another certificate, is mapped afterwards. */
  lemma IdentifierStaysMapped(r: Renewing, parts: seq<Part>, outcome: (nat, nat) -> Outcome, s: Store, x: string)
    requires x in s.domainMap && (Asked(parts, x) || s.domainMap[x] != r.oldID)
    ensures x in Renewed(r, parts, outcome, s).domainMap
  {
    var p := RenewParts(r, parts, outcome, Begin(s, {}));
    PartsFold(r, parts, outcome, Begin(s, {}), s);
    if p.renewedAll && r.oldID !in p.newIDs && Asked(parts, x) {
      AskedSucceeds(parts, p, x);
    }
  }

  lemma AskedSucceeds(parts: seq<Part>, p: Progress, x: string)
    requires p.renewedAll && Asked(parts, x)
    requires forall j :: 0 <= j < |parts| ==> OrdersSucceeded(p, parts[j].orders)
    ensures Successor(p, x)
  {
    var j, k :| 0 <= j < |parts| && 0 <= k < |parts[j].orders| && x in parts[j].orders[k];
    assert AllSucceeded(p, parts[j].orders[k]);
    var i :| 0 <= i < |parts[j].orders[k]| && parts[j].orders[k][i] == x;
  }

  /** A name planned into an identifier that covers it is answered afterwards, if that identifier was asked for. */
  lemma PlannedNameStaysAnswered(r: Renewing, parts: seq<Part>, outcome: (nat, nat) -> Outcome, s: Store, d: string, x: string)
    requires d in s.domainMap && Asked(parts, x) && (x == d || MatchesWildcard(x, d))
    ensures Answered(Renewed(r, parts, outcome, s), d)
  {
    var p := RenewParts(r, parts, outcome, Begin(s, {}));
    PartsFold(r, parts, outcome, Begin(s, {}), s);
    if p.renewedAll && r.oldID !in p.newIDs {
      AskedSucceeds(parts, p, x);
    }
  }

  // ---- The maps stay valid ----

  /** All orders of the renewal, as histories of the manager see them. */
  function OrderActions(r: Renewing, orders: seq<seq<string>>): seq<Action> {
    seq(|orders|, i requires 0 <= i < |orders| => Action.Adopted(NewCert(r, "", orders[i], 0), r.owners))
  }

  /** No digest is shared by two of the orders or by an order and a stored certificate it is not. */
  ghost predicate Compatible(r: Renewing, s: Store, orders: seq<seq<string>>) {
    HexDigests(r.digest) && NoClash(s, OrderActions(r, orders))
  }

  ghost predicate KnownStore(r: Renewing, s: Store, orders: seq<seq<string>>, now: Store) {
    ValidStore(now) && forall id :: id in now.certs ==> Known(s, OrderActions(r, orders), id, now.certs[id].domains)
  }

  lemma OrderKeepsValid(r: Renewing, directory: string, order: seq<string>, outcome: Outcome, p: Progress, s: Store, orders: seq<seq<string>>, at: nat)
    requires Compatible(r, s, orders) && at < |orders| && orders[at] == order && KnownStore(r, s, orders, p.store)
    ensures KnownStore(r, s, orders, RenewOrder(r, directory, order, outcome, p).store)
  {
    if outcome.Adopted? {
      var actions := OrderActions(r, orders);
      var cert := NewCert(r, directory, order, outcome.notAfter);
      assert IssuedIDs(r.digest, actions);
      KnownIsAdoptable(r.digest, s, actions, p.store, at);
      assert Adoptable(p.store, cert);
      AdoptValidIff(p.store, r.owners, cert);
      AdoptMaps(p.store, r.owners, cert);
      assert Known(s, actions, cert.identifier, cert.domains) by {
        assert actions[at].cert.identifier == cert.identifier;
      }
    }
  }

  lemma {:induction false} PartKeepsValid(r: Renewing, directory: string, part: seq<seq<string>>, outcome: nat -> Outcome, p: Progress, s: Store, orders: seq<seq<string>>)
    requires Compatible(r, s, orders) && KnownStore(r, s, orders, p.store)
    requires forall k :: 0 <= k < |part| ==> part[k] in orders
    ensures KnownStore(r, s, orders, RenewPart(r, directory, part, outcome, p).0.store)
  {
    if part != [] {
      var n := |part| - 1;
      assert forall k :: 0 <= k < n ==> part[..n][k] == part[k];
      PartKeepsValid(r, directory, part[..n], outcome, p, s, orders);
      var (before, stopped) := RenewPart(r, directory, part[..n], outcome, p);
      if !stopped {
        var at :| 0 <= at < |orders| && orders[at] == part[n];
        OrderKeepsValid(r, directory, part[n], outcome(n), before, s, orders, at);
      }
    }
  }

  lemma {:induction false} PartsKeepValid(r: Renewing, parts: seq<Part>, outcome: (nat, nat) -> Outcome, p: Progress, s: Store, orders: seq<seq<string>>)
    requires Compatible(r, s, orders) && KnownStore(r, s, orders, p.store)
    requires forall j, k :: 0 <= j < |parts| && 0 <= k < |parts[j].orders| ==> parts[j].orders[k] in orders
    ensures KnownStore(r, s, orders, RenewParts(r, parts, outcome, p).store)
  {
    if parts != [] {
      var n := |parts| - 1;
      assert forall j :: 0 <= j < n ==> parts[..n][j] == parts[j];
      PartsKeepValid(r, parts[..n], outcome, p, s, orders);
      PartKeepsValid(r, parts[n].directory, parts[n].orders, (k: nat) => outcome(n, k), RenewParts(r, parts[..n], outcome, p), s, orders);
    }
  }

  lemma RenewedValid(r: Renewing, parts: seq<Part>, outcome: (nat, nat) -> Outcome, s: Store, orders: seq<seq<string>>)
    requires ValidStore(s) && Compatible(r, s, orders)
    requires forall j, k :: 0 <= j < |parts| && 0 <= k < |parts[j].orders| ==> parts[j].orders[k] in orders
    ensures ValidStore(Renewed(r, parts, outcome, s))
  {
    PartsKeepValid(r, parts, outcome, Begin(s, {}), s, orders);
    RemoveValid(RenewParts(r, parts, outcome, Begin(s, {})).store, r.oldID);
  }

  // ---- The renewal marker ----

  /** Marked orders so far stayed at the recorded directory, and one was accepted exactly when the marker is spent. */
  ghost predicate MarkerLedger(r: Renewing, p: Progress) {
    && (forall i :: 0 <= i < |p.sent| && p.sent[i].marked ==> p.sent[i].directory == r.recorded && r.hasMarker)
    && (forall i, j :: 0 <= i < j < |p.sent| && p.sent[i].marked && p.sent[i].accepted ==> !p.sent[j].marked)
    && (p.markerSpent <==> exists i :: 0 <= i < |p.sent| && p.sent[i].marked && p.sent[i].accepted)
    && (r.hasMarker && !p.markerSpent ==> forall i :: 0 <= i < |p.sent| && p.sent[i].directory == r.recorded ==> !p.sent[i].accepted)
    && (forall j :: 0 <= j < |p.sent| && r.hasMarker && p.sent[j].directory == r.recorded && UnspentBefore(p.sent, j) ==> p.sent[j].marked)
  }

  /** No marked order before this one was accepted. */
  ghost predicate UnspentBefore(sent: seq<Sent>, j: nat)
    requires j <= |sent|
  {
    forall i :: 0 <= i < j ==> !(sent[i].marked && sent[i].accepted)
  }

  lemma UnspentIsMarked(r: Renewing, directory: string, order: seq<string>, outcome: Outcome, p: Progress)
    requires MarkerLedger(r, p) && r.hasMarker && directory == r.recorded
    ensures var q := RenewOrder(r, directory, order, outcome, p);
            UnspentBefore(q.sent, |p.sent|) ==> q.sent[|p.sent|].marked
  {
    var q := RenewOrder(r, directory, order, outcome, p);
    if UnspentBefore(q.sent, |p.sent|) {
      forall i | 0 <= i < |p.sent| ensures !(p.sent[i].marked && p.sent[i].accepted) {
        assert q.sent[i] == p.sent[i];
      }
      assert !p.markerSpent;
    }
  }

  lemma SpentIffAccepted(r: Renewing, directory: string, order: seq<string>, outcome: Outcome, p: Progress)
    requires MarkerLedger(r, p)
    ensures var q := RenewOrder(r, directory, order, outcome, p);
            q.markerSpent <==> exists i :: 0 <= i < |q.sent| && q.sent[i].marked && q.sent[i].accepted
  {
    var q := RenewOrder(r, directory, order, outcome, p);
    assert forall i :: 0 <= i < |p.sent| ==> q.sent[i] == p.sent[i];
    var last := q.sent[|p.sent|];
    if q.markerSpent && !p.markerSpent {
      assert last.marked && last.accepted;
    } else if p.markerSpent {
      var i :| 0 <= i < |p.sent| && p.sent[i].marked && p.sent[i].accepted;
      assert q.sent[i].marked && q.sent[i].accepted;
    }
  }

  lemma OrderKeepsLedger(r: Renewing, directory: string, order: seq<string>, outcome: Outcome, p: Progress)
    requires MarkerLedger(r, p)
    ensures MarkerLedger(r, RenewOrder(r, directory, order, outcome, p))
  {
    var q := RenewOrder(r, directory, order, outcome, p);
    assert forall i :: 0 <= i < |p.sent| ==> q.sent[i] == p.sent[i];
    SpentIffAccepted(r, directory, order, outcome, p);
    forall j | 0 <= j < |q.sent| && r.hasMarker && q.sent[j].directory == r.recorded && UnspentBefore(q.sent, j) ensures q.sent[j].marked {
      if j < |p.sent| {
        assert UnspentBefore(p.sent, j);
      } else {
        UnspentIsMarked(r, directory, order, outcome, p);
      }
    }
  }

  lemma {:induction false} PartKeepsLedger(r: Renewing, directory: string, orders: seq<seq<string>>, outcome: nat -> Outcome, p: Progress)
    requires MarkerLedger(r, p)
    ensures MarkerLedger(r, RenewPart(r, directory, orders, outcome, p).0)
  {
    if orders != [] {
      var n := |orders| - 1;
      PartKeepsLedger(r, directory, orders[..n], outcome, p);
      var (before, stopped) := RenewPart(r, directory, orders[..n], outcome, p);
      if !stopped {
        OrderKeepsLedger(r, directory, orders[n], outcome(n), before);
      }
    }
  }

  /**
   * However the orders of a renewal turn out, its marker is sent only to the
   * directory that issued the certificate, never again once accepted, and with
   * every order there until it is.
   */
  lemma {:induction false} MarkerUsedOnce(r: Renewing, parts: seq<Part>, outcome: (nat, nat) -> Outcome, s: Store)
    ensures MarkerLedger(r, RenewParts(r, parts, outcome, Begin(s, {})))
  {
    if parts != [] {
      var n := |parts| - 1;
      MarkerUsedOnce(r, parts[..n], outcome, s);
      PartKeepsLedger(r, parts[n].directory, parts[n].orders, (k: nat) => outcome(n, k), RenewParts(r, parts[..n], outcome, Begin(s, {})));
    }
  }

  // ---- In place ----

  /** A manager, a quarantine and the renewer's tallies, as one progress. */
  ghost function Snapshot(manager: SANCertManager, quarantine: Quarantine.DomainQuarantine, now: nat,
                          renewedAll: bool, markerSpent: bool, newIDs: seq<string>, sent: seq<Sent>): Progress
    reads manager, quarantine
  {
    Progress(manager.AsStore(), renewedAll, markerSpent, newIDs, sent, FailureHandling.HeldNow(quarantine.entries, now))
  }

  /** A refused order's blamed names are held, through the advertised time of a rate limit or for one more failure; nobody else's record changes. */
  ghost predicate OutcomeHolds(before: Quarantine.Holds, after: Quarantine.Holds, order: seq<string>, result: Outcome, now: nat) {
    match result
    case Adopted(_) => (forall d :: d in order ==> d !in after) && FailureHandling.OnlyTouches(before, after, Issuer.Elements(order))
    case AcceptedOnly => after == before
    case Aborted => after == before
    case Failed(_, _) => FailureHandling.FailedHolds(before, after, Issuer.Elements(Blamed(order, result)), now)
    case RateLimited(_, retryAfter) => FailureHandling.LimitedHolds(before, after, Issuer.Elements(Blamed(order, result)), now, retryAfter)
  }

  /** The quarantine's part of an order's outcome. */
  method RecordOutcome(quarantine: Quarantine.DomainQuarantine, order: seq<string>, result: Outcome, now: nat)
    modifies quarantine
    ensures FailureHandling.HeldNow(quarantine.entries, now) == HeldAfter(old(FailureHandling.HeldNow(quarantine.entries, now)), order, result)
    ensures OutcomeHolds(old(quarantine.entries), quarantine.entries, order, result, now)
  {
    match result
    case Adopted(_) => FailureHandling.ClearAll(quarantine, order, now);
    case AcceptedOnly =>
    case Aborted =>
    case Failed(_, _) => FailureHandling.HoldAllFailed(quarantine, Blamed(order, result), now);
    case RateLimited(_, retryAfter) => FailureHandling.HoldAllLimited(quarantine, Blamed(order, result), retryAfter, now);
  }

  /** One order of a renewal: what it does to the manager, the quarantine and the renewer's tallies. */
  method SubmitOrder(manager: SANCertManager, quarantine: Quarantine.DomainQuarantine, now: nat,
                     r: Renewing, directory: string, order: seq<string>, result: Outcome,
                     renewedAll: bool, markerSpent: bool, newIDs: seq<string>, ghost sent: seq<Sent>)
    returns (renewedAll': bool, markerSpent': bool, newIDs': seq<string>, ghost sent': seq<Sent>)
    requires r.owners == manager.AsOwners()
    modifies manager`certificates, manager`domainToCert, quarantine
    ensures Snapshot(manager, quarantine, now, renewedAll', markerSpent', newIDs', sent')
         == RenewOrder(r, directory, order, result, old(Snapshot(manager, quarantine, now, renewedAll, markerSpent, newIDs, sent)))
    ensures OutcomeHolds(old(quarantine.entries), quarantine.entries, order, result, now)
  {
    renewedAll', markerSpent', newIDs' := renewedAll, markerSpent, newIDs;
    var marked := r.hasMarker && !markerSpent && directory == r.recorded;
    var accepted := result.Adopted? || result.AcceptedOnly?;
    sent' := sent + [Sent(directory, marked, accepted)];
    if marked && accepted {
      markerSpent' := true;
    }
    RecordOutcome(quarantine, order, result, now);
    if result.Adopted? {
      var renewed := manager.AdoptCertificateAt(r.digest, order, directory, result.notAfter);
      newIDs' := newIDs + [renewed.identifier];
    } else {
      renewedAll' := false;
    }
  }

  ghost predicate HeldThroughAll(holds: Quarantine.Holds, order: seq<string>, now: nat, retryAfter: Option<nat>) {
    forall d :: d in order ==> FailureHandling.HeldThrough(holds, d, now, retryAfter)
  }

  ghost predicate NoneLimited(orders: seq<seq<string>>, outcome: nat -> Outcome, n: nat)
    requires n <= |orders|
  {
    forall i :: 0 <= i < n ==> !AccountLimited(orders[i], outcome(i))
  }

  /** A directory that has not stopped has met no limit. */
  lemma {:induction false} UnstoppedNone(r: Renewing, directory: string, orders: seq<seq<string>>, outcome: nat -> Outcome, p: Progress, n: nat)
    requires n <= |orders| && !RenewPart(r, directory, orders[..n], outcome, p).1
    ensures NoneLimited(orders, outcome, n)
  {
    if n > 0 {
      assert orders[..n][..n - 1] == orders[..n - 1];
      UnstoppedNone(r, directory, orders, outcome, p, n - 1);
    }
  }

  /** From the first account limit on, every order's names are on hold through the advertised time. */
  ghost predicate LimitHeld(holds: Quarantine.Holds, orders: seq<seq<string>>, outcome: nat -> Outcome, now: nat) {
    forall limit :: 0 <= limit < |orders| && AccountLimited(orders[limit], outcome(limit)) && NoneLimited(orders, outcome, limit) ==>
      forall j :: limit <= j < |orders| ==> HeldThroughAll(holds, orders[j], now, outcome(limit).retryAfter)
  }

  lemma LimitHoldsOrder(before: Quarantine.Holds, after: Quarantine.Holds, order: seq<string>, result: Outcome, now: nat)
    requires OutcomeHolds(before, after, order, result, now) && AccountLimited(order, result)
    ensures HeldThroughAll(after, order, now, result.retryAfter)
  {
  }

  /** Submits one order and says whether its directory's account is limited, in which case the whole order is on hold. */
  method SendOrder(manager: SANCertManager, quarantine: Quarantine.DomainQuarantine, now: nat,
                   r: Renewing, directory: string, order: seq<string>, result: Outcome,
                   renewedAll: bool, markerSpent: bool, newIDs: seq<string>, ghost sent: seq<Sent>)
    returns (stopped: bool, renewedAll': bool, markerSpent': bool, newIDs': seq<string>, ghost sent': seq<Sent>)
    requires r.owners == manager.AsOwners()
    modifies manager`certificates, manager`domainToCert, quarantine
    ensures stopped == AccountLimited(order, result)
    ensures stopped ==> HeldThroughAll(quarantine.entries, order, now, result.retryAfter)
    ensures Snapshot(manager, quarantine, now, renewedAll', markerSpent', newIDs', sent')
         == RenewOrder(r, directory, order, result, old(Snapshot(manager, quarantine, now, renewedAll, markerSpent, newIDs, sent)))
  {
    renewedAll', markerSpent', newIDs', sent' :=
      SubmitOrder(manager, quarantine, now, r, directory, order, result, renewedAll, markerSpent, newIDs, sent);
    stopped := AccountLimited(order, result);
    if stopped {
      LimitHoldsOrder(old(quarantine.entries), quarantine.entries, order, result, now);
    }
  }

  /** A directory's orders, up to and including the first account limit. */
  method SendOrders(manager: SANCertManager, quarantine: Quarantine.DomainQuarantine, now: nat,
                    r: Renewing, directory: string, orders: seq<seq<string>>, outcome: nat -> Outcome,
                    renewedAll: bool, markerSpent: bool, newIDs: seq<string>, ghost sent: seq<Sent>)
    returns (k: nat, stopped: bool, renewedAll': bool, markerSpent': bool, newIDs': seq<string>, ghost sent': seq<Sent>)
    requires r.owners == manager.AsOwners()
    modifies manager`certificates, manager`domainToCert, quarantine
    ensures k <= |orders| && (stopped ==> k > 0 && AccountLimited(orders[k - 1], outcome(k - 1))) && (!stopped ==> k == |orders|)
    ensures stopped ==> !RenewPart(r, directory, orders[..k - 1], outcome, old(Snapshot(manager, quarantine, now, renewedAll, markerSpent, newIDs, sent))).1
    ensures stopped ==> HeldThroughAll(quarantine.entries, orders[k - 1], now, outcome(k - 1).retryAfter)
    ensures (Snapshot(manager, quarantine, now, renewedAll', markerSpent', newIDs', sent'), stopped)
         == RenewPart(r, directory, orders[..k], outcome, old(Snapshot(manager, quarantine, now, renewedAll, markerSpent, newIDs, sent)))
  {
    ghost var before := Snapshot(manager, quarantine, now, renewedAll, markerSpent, newIDs, sent);
    renewedAll', markerSpent', newIDs', sent' := renewedAll, markerSpent, newIDs, sent;
    k, stopped := 0, false;
    while k < |orders| && !stopped
      invariant k <= |orders| && (stopped ==> k > 0 && AccountLimited(orders[k - 1], outcome(k - 1)))
      invariant stopped ==> !RenewPart(r, directory, orders[..k - 1], outcome, before).1
      invariant stopped ==> HeldThroughAll(quarantine.entries, orders[k - 1], now, outcome(k - 1).retryAfter)
      invariant (Snapshot(manager, quarantine, now, renewedAll', markerSpent', newIDs', sent'), stopped)
             == RenewPart(r, directory, orders[..k], outcome, before)
    {
      assert orders[..k + 1][..k] == orders[..k];
      stopped, renewedAll', markerSpent', newIDs', sent' :=
        SendOrder(manager, quarantine, now, r, directory, orders[k], outcome(k), renewedAll', markerSpent', newIDs', sent');
      k := k + 1;
    }
  }

  function Union(orders: seq<seq<string>>): set<string> {
    if orders == [] then {} else Union(orders[..|orders| - 1]) + Issuer.Elements(orders[|orders| - 1])
  }

  method HoldPartitions(quarantine: Quarantine.DomainQuarantine, orders: seq<seq<string>>, retryAfter: Option<nat>, now: nat)
    modifies quarantine
    ensures FailureHandling.HeldNow(quarantine.entries, now) == old(FailureHandling.HeldNow(quarantine.entries, now)) + Union(orders)
    ensures FailureHandling.LimitedHolds(old(quarantine.entries), quarantine.entries, Union(orders), now, retryAfter)
  {
    ghost var before := quarantine.entries;
    for j := 0 to |orders|
      invariant FailureHandling.LimitedHolds(before, quarantine.entries, Union(orders[..j]), now, retryAfter)
      invariant FailureHandling.HeldNow(quarantine.entries, now) == old(FailureHandling.HeldNow(quarantine.entries, now)) + Union(orders[..j])
    {
      assert orders[..j + 1][..j] == orders[..j];
      ghost var middle := quarantine.entries;
      FailureHandling.HoldAllLimited(quarantine, orders[j], retryAfter, now);
      FailureHandling.LimitedTwice(before, middle, quarantine.entries, Union(orders[..j]), Issuer.Elements(orders[j]), now, retryAfter);
    }
    assert orders[..|orders|] == orders;
  }

  lemma StoppedStep(r: Renewing, directory: string, orders: seq<seq<string>>, outcome: nat -> Outcome, p: Progress)
    requires orders != [] && RenewPart(r, directory, orders[..|orders| - 1], outcome, p).1
    ensures var n := |orders| - 1;
            var q := RenewPart(r, directory, orders[..n], outcome, p).0;
            RenewPart(r, directory, orders, outcome, p) == (q.(held := q.held + Issuer.Elements(orders[n])), true)
  {
  }

  lemma UnionStep(orders: seq<seq<string>>, k: nat)
    requires k < |orders|
    ensures Union(orders[k..]) == Union(orders[..|orders| - 1][k..]) + Issuer.Elements(orders[|orders| - 1])
  {
    var n := |orders| - 1;
    var rest := orders[k..];
    assert rest[..|rest| - 1] == orders[..n][k..] && rest[|rest| - 1] == orders[n];
  }

  lemma HeldTogether(q: Progress, a: set<string>, b: set<string>)
    ensures q.(held := q.held + a).(held := q.held + a + b) == q.(held := q.held + (a + b))
  {
    assert q.held + a + b == q.held + (a + b);
  }

  /** After a stop, the rest of a directory's orders are held and nothing else happens. */
  lemma {:induction false} StoppedRest(r: Renewing, directory: string, orders: seq<seq<string>>, outcome: nat -> Outcome, p: Progress, k: nat, q: Progress)
    requires k <= |orders| && RenewPart(r, directory, orders[..k], outcome, p) == (q, true)
    ensures RenewPart(r, directory, orders, outcome, p) == (q.(held := q.held + Union(orders[k..])), true)
  {
    if k == |orders| {
      assert orders[..k] == orders && orders[k..] == [] && q.held + {} == q.held;
    } else {
      var n := |orders| - 1;
      assert orders[..n][..k] == orders[..k];
      StoppedRest(r, directory, orders[..n], outcome, p, k, q);
      StoppedStep(r, directory, orders, outcome, p);
      UnionStep(orders, k);
      HeldTogether(q, Union(orders[..n][k..]), Issuer.Elements(orders[n]));
    }
  }

  lemma {:induction false} InUnion(orders: seq<seq<string>>, j: nat)
    requires j < |orders|
    ensures Issuer.Elements(orders[j]) <= Union(orders)
  {
    if j < |orders| - 1 {
      InUnion(orders[..|orders| - 1], j);
    }
  }

  /** The limited order and all that were not sent are on hold through the advertised time. */
  lemma RestHeld(middle: Quarantine.Holds, after: Quarantine.Holds, orders: seq<seq<string>>, outcome: nat -> Outcome, k: nat, now: nat)
    requires 0 < k <= |orders| && AccountLimited(orders[k - 1], outcome(k - 1)) && NoneLimited(orders, outcome, k - 1)
    requires HeldThroughAll(middle, orders[k - 1], now, outcome(k - 1).retryAfter)
    requires FailureHandling.LimitedHolds(middle, after, Union(orders[k..]), now, outcome(k - 1).retryAfter)
    ensures LimitHeld(after, orders, outcome, now)
  {
    var retryAfter := outcome(k - 1).retryAfter;
    forall j | k - 1 <= j < |orders| ensures HeldThroughAll(after, orders[j], now, retryAfter) {
      if j == k - 1 {
        forall d | d in orders[j] && d !in Union(orders[k..]) {
          FailureHandling.SameHold(middle, after, d, now, retryAfter);
        }
      } else {
        InUnion(orders[k..], j - k);
        assert orders[k..][j - k] == orders[j];
      }
    }
  }

  /** One directory's orders; an account limit holds the rest of them unsent. */
  method SubmitPart(manager: SANCertManager, quarantine: Quarantine.DomainQuarantine, now: nat,
                    r: Renewing, part: Part, outcome: nat -> Outcome,
                    renewedAll: bool, markerSpent: bool, newIDs: seq<string>, ghost sent: seq<Sent>)
    returns (renewedAll': bool, markerSpent': bool, newIDs': seq<string>, ghost sent': seq<Sent>)
    requires r.owners == manager.AsOwners()
    modifies manager`certificates, manager`domainToCert, quarantine
    ensures Snapshot(manager, quarantine, now, renewedAll', markerSpent', newIDs', sent')
         == RenewPart(r, part.directory, part.orders, outcome, old(Snapshot(manager, quarantine, now, renewedAll, markerSpent, newIDs, sent))).0
    ensures LimitHeld(quarantine.entries, part.orders, outcome, now)
  {
    ghost var before := Snapshot(manager, quarantine, now, renewedAll, markerSpent, newIDs, sent);
    var k, stopped;
    k, stopped, renewedAll', markerSpent', newIDs', sent' :=
      SendOrders(manager, quarantine, now, r, part.directory, part.orders, outcome, renewedAll, markerSpent, newIDs, sent);
    if stopped {
      StoppedRest(r, part.directory, part.orders, outcome, before, k,
                  Snapshot(manager, quarantine, now, renewedAll', markerSpent', newIDs', sent'));
      UnstoppedNone(r, part.directory, part.orders, outcome, before, k - 1);
      ghost var middle := quarantine.entries;
      HoldPartitions(quarantine, part.orders[k..], outcome(k - 1).retryAfter, now);
      RestHeld(middle, quarantine.entries, part.orders, outcome, k, now);
    } else {
      UnstoppedNone(r, part.directory, part.orders, outcome, before, k);
      assert part.orders[..k] == part.orders;
    }
  }

  /** A whole renewal in place: every directory's orders, then the old certificate. */
  method RenewOrders(manager: SANCertManager, quarantine: Quarantine.DomainQuarantine, now: nat,
                     r: Renewing, parts: seq<Part>, outcome: (nat, nat) -> Outcome)
    requires r.owners == manager.AsOwners()
    modifies manager`certificates, manager`domainToCert, quarantine
    ensures manager.AsStore() == Renewed(r, parts, outcome, old(manager.AsStore()))
    ensures FailureHandling.HeldNow(quarantine.entries, now)
         == RenewParts(r, parts, outcome, Begin(old(manager.AsStore()), old(FailureHandling.HeldNow(quarantine.entries, now)))).held
  {
    ghost var store, held := manager.AsStore(), FailureHandling.HeldNow(quarantine.entries, now);
    var renewedAll, markerSpent := true, false;
    var newIDs: seq<string> := [];
    ghost var sent: seq<Sent> := [];
    for j := 0 to |parts|
      invariant Snapshot(manager, quarantine, now, renewedAll, markerSpent, newIDs, sent)
             == RenewParts(r, parts[..j], outcome, Begin(store, held))
    {
      assert parts[..j + 1][..j] == parts[..j];
      renewedAll, markerSpent, newIDs, sent :=
        SubmitPart(manager, quarantine, now, r, parts[j], (k: nat) => outcome(j, k), renewedAll, markerSpent, newIDs, sent);
    }
    assert parts[..|parts|] == parts;
    HoldsAside(r, parts, outcome, Begin(store, {}), held);
    if renewedAll && r.oldID !in newIDs {
      manager.RemoveCertificate(r.oldID);
    }
  }

  // ---- Holds ----

  /** The same progress but for who is on hold. */
  ghost predicate SameButHolds(p: Progress, q: Progress) {
    q == p.(held := q.held)
  }

  lemma {:induction false} PartHoldsAside(r: Renewing, directory: string, orders: seq<seq<string>>, outcome: nat -> Outcome, p: Progress, q: Progress)
    requires SameButHolds(p, q)
    ensures var (p', a) := RenewPart(r, directory, orders, outcome, p);
            var (q', b) := RenewPart(r, directory, orders, outcome, q);
            SameButHolds(p', q') && a == b
  {
    if orders != [] {
      PartHoldsAside(r, directory, orders[..|orders| - 1], outcome, p, q);
    }
  }

  /** Holds never decide which orders are sent or what the store becomes. */
  lemma {:induction false} HoldsAside(r: Renewing, parts: seq<Part>, outcome: (nat, nat) -> Outcome, p: Progress, held: set<string>)
    ensures SameButHolds(RenewParts(r, parts, outcome, p), RenewParts(r, parts, outcome, p.(held := held)))
  {
    if parts != [] {
      var n := |parts| - 1;
      HoldsAside(r, parts[..n], outcome, p, held);
      PartHoldsAside(r, parts[n].directory, parts[n].orders, (k: nat) => outcome(n, k),
                     RenewParts(r, parts[..n], outcome, p), RenewParts(r, parts[..n], outcome, p.(held := held)));
    }
  }

  /**
   * A directory stops exactly at its first account limit, sends nothing after it,
   * and leaves that order's identifiers and all the unsent ones on hold.
   */
  lemma {:induction false} AccountLimitHoldsRest(r: Renewing, directory: string, orders: seq<seq<string>>, outcome: nat -> Outcome, p: Progress, limit: nat)
    requires limit < |orders| && AccountLimited(orders[limit], outcome(limit))
    requires forall i :: 0 <= i < limit ==> !AccountLimited(orders[i], outcome(i))
    ensures var (q, stopped) := RenewPart(r, directory, orders, outcome, p);
            && stopped && !q.renewedAll && |q.sent| == |p.sent| + limit + 1
            && forall j :: limit <= j < |orders| ==> Issuer.Elements(orders[j]) <= q.held
  {
    var n := |orders| - 1;
    if limit == n {
      SentUntil(r, directory, orders[..n], outcome, p);
    } else {
      AccountLimitHoldsRest(r, directory, orders[..n], outcome, p, limit);
      assert forall j :: limit <= j < n ==> orders[..n][j] == orders[j];
    }
  }

  lemma {:induction false} SentUntil(r: Renewing, directory: string, orders: seq<seq<string>>, outcome: nat -> Outcome, p: Progress)
    requires forall i :: 0 <= i < |orders| ==> !AccountLimited(orders[i], outcome(i))
    ensures var (q, stopped) := RenewPart(r, directory, orders, outcome, p);
            !stopped && |q.sent| == |p.sent| + |orders|
  {
    if orders != [] {
      SentUntil(r, directory, orders[..|orders| - 1], outcome, p);
    }
  }

  /** Whom a refusal is held against: whoever it names, else whoever fails a probe or is below a named one, else everybody. */
  lemma BlamedIff(order: seq<string>, outcome: Outcome, x: string)
    ensures outcome.Failed? ==>
              (x in Blamed(order, outcome) <==>
               x in order && (outcome.listed(x) || ((forall d :: d in order ==> !outcome.listed(d))
                                                    && (outcome.unreachable(x) || forall d :: d in order ==> !outcome.unreachable(d)))))
    ensures outcome.RateLimited? ==>
              (x in Blamed(order, outcome) <==>
               x in order && (FailureHandling.Listed(outcome.named, x)
                              || ((forall d :: d in order ==> !FailureHandling.Listed(outcome.named, d))
                                  && (FailureHandling.Below(outcome.named, x) || forall d :: d in order ==> !FailureHandling.Below(outcome.named, d)))))
    ensures !outcome.Failed? && !outcome.RateLimited? ==> Blamed(order, outcome) == []
  {
    if outcome.Failed? {
      NoneKept(order, outcome.listed);
      NoneKept(order, outcome.unreachable);
    } else if outcome.RateLimited? {
      LimitBlames(order, outcome.named, x);
    }
  }

  lemma NoneKept(domains: seq<string>, keep: string -> bool)
    ensures Keep(domains, keep) == [] <==> forall d :: d in domains ==> !keep(d)
  {
    if Keep(domains, keep) != [] {
      assert Keep(domains, keep)[0] in Keep(domains, keep);
    }
  }

  lemma LimitBlames(order: seq<string>, named: seq<string>, x: string)
    ensures var limited := FailureHandling.Limited(named, order);
            && (limited == [] <==> forall d :: d in order ==> !FailureHandling.Listed(named, d) && !FailureHandling.Below(named, d))
            && (limited != [] ==>
                  (x in limited <==> x in order && (FailureHandling.Listed(named, x)
                                                    || ((forall d :: d in order ==> !FailureHandling.Listed(named, d)) && FailureHandling.Below(named, x)))))
  {
    var isNamed, isUnder := (d: string) => FailureHandling.NamedBy(named, d), (d: string) => FailureHandling.RegisteredUnder(named, d);
    FailureHandling.FilterFacts(order, isNamed);
    FailureHandling.FilterFacts(order, isUnder);
    forall d ensures (isNamed(d) <==> FailureHandling.Listed(named, d)) && (isUnder(d) <==> FailureHandling.Below(named, d)) {
      FailureHandling.NamedByIff(named, d);
      FailureHandling.RegisteredUnderIff(named, d);
    }
    NoneFiltered(order, isNamed);
    NoneFiltered(order, isUnder);
  }

  lemma NoneFiltered(domains: seq<string>, keep: string -> bool)
    ensures FailureHandling.Filter(domains, keep) == [] <==> forall d :: d in domains ==> !keep(d)
  {
    FailureHandling.FilterFacts(domains, keep);
    if FailureHandling.Filter(domains, keep) != [] {
      assert FailureHandling.Filter(domains, keep)[0] in FailureHandling.Filter(domains, keep);
    }
  }

  /** One order's effect on the tallies: success alone clears holds, and what the CA accepted is what it adopted or only accepted. */
  lemma OrderTallies(r: Renewing, directory: string, order: seq<string>, outcome: Outcome, p: Progress, x: string)
    ensures var q := RenewOrder(r, directory, order, outcome, p);
            && (x in q.held <==> if outcome.Adopted? then x in p.held && x !in order else x in p.held || x in Blamed(order, outcome))
            && |q.sent| == |p.sent| + 1 && q.sent[..|p.sent|] == p.sent && q.sent[|p.sent|].directory == directory
            && (q.sent[|p.sent|].accepted <==> outcome.Adopted? || outcome.AcceptedOnly?)
            && (q.renewedAll <==> p.renewedAll && outcome.Adopted?)
  {
  }

  /** A refused order always leaves one of its own identifiers on hold. */
  lemma RefusalHolds(order: seq<string>, outcome: Outcome, held: set<string>) returns (x: string)
    requires order != [] && (outcome.Failed? || outcome.RateLimited?)
    ensures x in order && x in HeldAfter(held, order, outcome)
  {
    var blamed := Blamed(order, outcome);
    if outcome.RateLimited? {
      FailureHandling.FilterFacts(order, (d: string) => FailureHandling.NamedBy(outcome.named, d));
      FailureHandling.FilterFacts(order, (d: string) => FailureHandling.RegisteredUnder(outcome.named, d));
    }
    x := blamed[0];
    assert x in blamed;
  }
}
