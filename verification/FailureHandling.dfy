/**
 * What a failed order does: who is blamed, who is held, and who goes back to the
 * queue. Error texts are parsed elsewhere; here a failure is the names it lists.
 */
module FailureHandling {
  import opened Text
  import opened Names
  import opened Issuer
  import Quarantine

  // ---- Attribution ----

  predicate NamedBy(identifiers: seq<string>, domain: string) {
    exists i :: 0 <= i < |identifiers| && (domain == identifiers[i] || domain == "*." + identifiers[i])
  }

  predicate RegisteredUnder(identifiers: seq<string>, domain: string) {
    exists i :: 0 <= i < |identifiers| && HasSuffix(domain, "." + identifiers[i])
  }

  function Filter(domains: seq<string>, keep: string -> bool): seq<string> {
    if domains == [] then [] else
      var before := Filter(domains[..|domains| - 1], keep);
      if keep(domains[|domains| - 1]) then before + [domains[|domains| - 1]] else before
  }

  lemma {:induction false} FilterFacts(domains: seq<string>, keep: string -> bool)
    ensures forall x :: x in Filter(domains, keep) <==> x in domains && keep(x)
  {
    if domains != [] {
      FilterFacts(domains[..|domains| - 1], keep);
      assert domains == domains[..|domains| - 1] + [domains[|domains| - 1]];
    }
  }

  method FilterLoop(domains: seq<string>, keep: string -> bool) returns (kept: seq<string>)
    ensures kept == Filter(domains, keep)
  {
    kept := [];
    for i := 0 to |domains|
      invariant kept == Filter(domains[..i], keep)
    {
      assert domains[..i + 1][..i] == domains[..i];
      if keep(domains[i]) {
        kept := kept + [domains[i]];
      }
    }
    assert domains[..|domains|] == domains;
  }

  function Limited(identifiers: seq<string>, domains: seq<string>): seq<string> {
    var named := Filter(domains, (d: string) => NamedBy(identifiers, d));
    if named != [] then named else Filter(domains, (d: string) => RegisteredUnder(identifiers, d))
  }

  /** One of the names, or the wildcard of one. */
  ghost predicate Listed(identifiers: seq<string>, domain: string) {
    domain in identifiers || (|domain| >= 2 && domain[0] == '*' && domain[1] == '.' && domain[2..] in identifiers)
  }

  /** Something, a dot, and one of the names. */
  ghost predicate Below(identifiers: seq<string>, domain: string) {
    exists k :: 0 <= k < |domain| && domain[k] == '.' && domain[k + 1..] in identifiers
  }

  lemma NamedByIff(identifiers: seq<string>, domain: string)
    ensures NamedBy(identifiers, domain) <==> Listed(identifiers, domain)
  {
    if NamedBy(identifiers, domain) {
      var i :| 0 <= i < |identifiers| && (domain == identifiers[i] || domain == "*." + identifiers[i]);
      assert identifiers[i] in identifiers;
    }
    if Listed(identifiers, domain) && domain !in identifiers {
      var i :| 0 <= i < |identifiers| && identifiers[i] == domain[2..];
      assert domain == "*." + identifiers[i];
    }
  }

  lemma RegisteredUnderIff(identifiers: seq<string>, domain: string)
    ensures RegisteredUnder(identifiers, domain) <==> Below(identifiers, domain)
  {
    if RegisteredUnder(identifiers, domain) {
      var i :| 0 <= i < |identifiers| && HasSuffix(domain, "." + identifiers[i]);
      DotThenName(domain, identifiers[i]);
    }
    if Below(identifiers, domain) {
      var k :| 0 <= k < |domain| && domain[k] == '.' && domain[k + 1..] in identifiers;
      var i :| 0 <= i < |identifiers| && identifiers[i] == domain[k + 1..];
      assert domain[k..] == "." + identifiers[i];
    }
  }

  lemma DotThenName(domain: string, name: string)
    requires HasSuffix(domain, "." + name)
    ensures var k := |domain| - |name| - 1; 0 <= k < |domain| && domain[k] == '.' && domain[k + 1..] == name
  {
    var k := |domain| - |name| - 1;
    assert domain[k..] == "." + name;
    assert domain[k] == domain[k..][0] && domain[k + 1..] == domain[k..][1..];
  }

  /** Members the rejection names; only when it names none, members registered under a named domain. */
  method RateLimitedDomains(identifiers: seq<string>, domains: seq<string>) returns (failed: seq<string>)
    ensures failed == Limited(identifiers, domains)
    ensures forall x :: x in failed ==> x in domains
    ensures (exists d :: d in domains && Listed(identifiers, d)) ==>
              forall x :: x in failed <==> x in domains && Listed(identifiers, x)
    ensures !(exists d :: d in domains && Listed(identifiers, d)) ==>
              forall x :: x in failed <==> x in domains && Below(identifiers, x)
  {
    forall d ensures (NamedBy(identifiers, d) <==> Listed(identifiers, d)) && (RegisteredUnder(identifiers, d) <==> Below(identifiers, d)) {
      NamedByIff(identifiers, d);
      RegisteredUnderIff(identifiers, d);
    }
    var named := (d: string) => NamedBy(identifiers, d);
    var under := (d: string) => RegisteredUnder(identifiers, d);
    failed := FilterLoop(domains, named);
    FilterFacts(domains, named);
    if failed != [] {
      assert failed[0] in failed;
      return;
    }
    failed := FilterLoop(domains, under);
    FilterFacts(domains, under);
  }

  /** The error's own lines, else the failed probes, else everyone. */
  function IdentifyFailed(lines: seq<string>, probes: seq<string>, domains: seq<string>): (failed: seq<string>)
    requires (forall x :: x in lines ==> x in domains) && (forall x :: x in probes ==> x in domains)
    ensures forall x :: x in failed <==>
              x in lines || (lines == [] && x in probes) || (lines == [] && probes == [] && x in domains)
    ensures domains != [] ==> failed != []
  {
    if lines != [] then lines else if probes != [] then probes else domains
  }

  // ---- Who is held and who survives ----

  /** A request is answerable for a failed identifier only when that is its own name. */
  predicate Culprit(failed: seq<string>, identifierOf: Request -> string, r: Request) {
    identifierOf(r) in failed && !IsWildcard(identifierOf(r))
  }

  /** After a failed order: whoever is neither to blame nor already retried, marked retried. */
  function Survivors(requests: seq<Request>, failed: seq<string>, identifierOf: Request -> string): seq<Request> {
    if requests == [] then [] else
      var before := Survivors(requests[..|requests| - 1], failed, identifierOf);
      var r := requests[|requests| - 1];
      if Culprit(failed, identifierOf, r) || r.retried then before else before + [r.(retried := true)]
  }

  /** Names a failed order holds on their own account: survivors whose retry was already spent. */
  function Exhausted(requests: seq<Request>, failed: seq<string>, identifierOf: Request -> string): set<string> {
    set r | r in requests && !Culprit(failed, identifierOf, r) && r.retried :: r.domain
  }

  /** After a rate limit naming members: whoever is not to blame, with its retry unspent. */
  function Resubmitted(requests: seq<Request>, failed: seq<string>, identifierOf: Request -> string): seq<Request> {
    if requests == [] then [] else
      var before := Resubmitted(requests[..|requests| - 1], failed, identifierOf);
      var r := requests[|requests| - 1];
      if Culprit(failed, identifierOf, r) then before else before + [r]
  }

  /** What a rate limit holds: the limited members, or for an account limit the whole order, names included. */
  function LimitHolds(order: Order, limited: seq<string>): set<string> {
    if limited == [] then Elements(order.identifiers) + Domains(order.requests) else Elements(limited)
  }

  function LimitSurvivors(order: Order, limited: seq<string>, identifierOf: Request -> string): seq<Request> {
    if limited == [] then [] else Resubmitted(order.requests, limited, identifierOf)
  }

  /** What a failed order holds: the failed identifiers, and whoever had its retry. */
  function FailureHolds(order: Order, failed: seq<string>, identifierOf: Request -> string): set<string> {
    Elements(failed) + Exhausted(order.requests, failed, identifierOf)
  }

  lemma {:induction false} SurvivorFacts(requests: seq<Request>, failed: seq<string>, identifierOf: Request -> string)
    ensures var after := Survivors(requests, failed, identifierOf);
            && (forall r :: r in requests && !Culprit(failed, identifierOf, r) && !r.retried ==> r.(retried := true) in after)
            && (forall s :: s in after ==> s.retried && SurvivorOf(requests, failed, identifierOf, s))
            && Domains(after) <= Domains(requests)
            && (Distinct(requests) ==> Distinct(after))
  {
    if requests != [] {
      var front, last := requests[..|requests| - 1], requests[|requests| - 1];
      assert requests == front + [last];
      SurvivorFacts(front, failed, identifierOf);
      var before, after := Survivors(front, failed, identifierOf), Survivors(requests, failed, identifierOf);
      DomainsAppend(front, last);
      forall s | s in after ensures s.retried && SurvivorOf(requests, failed, identifierOf, s) {
        if s in before {
          var r :| r in front && !r.retried && s == r.(retried := true) && !Culprit(failed, identifierOf, r);
          assert r in requests;
        } else {
          assert last in requests;
        }
      }
      if after != before {
        DomainsAppend(before, last.(retried := true));
        if Distinct(requests) {
          LastDistinct(front, last);
          AppendDistinct(before, last.(retried := true));
        }
      } else if Distinct(requests) {
        LastDistinct(front, last);
      }
    }
  }

  ghost predicate SurvivorOf(requests: seq<Request>, failed: seq<string>, identifierOf: Request -> string, s: Request) {
    exists r :: r in requests && !r.retried && s == r.(retried := true) && !Culprit(failed, identifierOf, r)
  }

  lemma LastDistinct(front: seq<Request>, last: Request)
    requires Distinct(front + [last])
    ensures Distinct(front) && last.domain !in Domains(front)
  {
    var all := front + [last];
    forall i, j | 0 <= i < j < |front| ensures front[i].domain != front[j].domain {
      assert all[i] == front[i] && all[j] == front[j];
    }
    forall r | r in front ensures r.domain != last.domain {
      var i :| 0 <= i < |front| && front[i] == r;
      assert all[i] == r && all[|front|] == last;
    }
  }

  lemma {:induction false} ResubmittedFacts(requests: seq<Request>, failed: seq<string>, identifierOf: Request -> string)
    ensures var after := Resubmitted(requests, failed, identifierOf);
            && (forall r :: r in after <==> r in requests && !Culprit(failed, identifierOf, r))
            && Domains(after) <= Domains(requests)
            && (Distinct(requests) ==> Distinct(after))
  {
    if requests != [] {
      var front, last := requests[..|requests| - 1], requests[|requests| - 1];
      assert requests == front + [last];
      ResubmittedFacts(front, failed, identifierOf);
      DomainsAppend(front, last);
      var before := Resubmitted(front, failed, identifierOf);
      DomainsAppend(before, last);
      if Distinct(requests) {
        LastDistinct(front, last);
        if !Culprit(failed, identifierOf, last) {
          AppendDistinct(before, last);
        }
      }
    }
  }

  /** Each request is planned into its own name or into a wildcard. */
  ghost predicate PlannedIntoItself(order: Order, identifierOf: Request -> string) {
    forall r :: r in order.requests ==> identifierOf(r) == r.domain || IsWildcard(identifierOf(r))
  }

  /**
   * Whatever others queued while the failure was handled, each request of the
   * order ends up held or waiting, and no name waits twice.
   */
  lemma FailedOrderSettles(queue: seq<Request>, order: Order, failed: seq<string>, identifierOf: Request -> string, r: Request)
    requires Distinct(queue) && PlannedIntoItself(order, identifierOf) && r in order.requests
    ensures var after := Requeued(queue, Survivors(order.requests, failed, identifierOf));
            && Distinct(after)
            && (r.domain in FailureHolds(order, failed, identifierOf) || r.domain in Domains(after))
  {
    SurvivorFacts(order.requests, failed, identifierOf);
    RequeuedLaw(queue, Survivors(order.requests, failed, identifierOf));
    if !Culprit(failed, identifierOf, r) && !r.retried {
      assert r.(retried := true) in Survivors(order.requests, failed, identifierOf);
    }
  }

  lemma LimitedOrderSettles(queue: seq<Request>, order: Order, limited: seq<string>, identifierOf: Request -> string, r: Request)
    requires Distinct(queue) && PlannedIntoItself(order, identifierOf) && r in order.requests
    ensures var after := Requeued(queue, LimitSurvivors(order, limited, identifierOf));
            && Distinct(after)
            && (r.domain in LimitHolds(order, limited) || r.domain in Domains(after))
  {
    ResubmittedFacts(order.requests, limited, identifierOf);
    RequeuedLaw(queue, LimitSurvivors(order, limited, identifierOf));
    if limited != [] && !Culprit(limited, identifierOf, r) {
      assert r in Resubmitted(order.requests, limited, identifierOf);
    }
  }

  // ---- Exactly who is held and who goes back ----

  /** A failed order holds what failed and whoever had its retry; whoever else is not to blame goes back, its retry spent. */
  lemma FailureOutcome(order: Order, failed: seq<string>, identifierOf: Request -> string, x: string, r: Request)
    ensures x in FailureHolds(order, failed, identifierOf) <==>
            x in failed || exists q :: q in order.requests && q.domain == x && q.retried && !(identifierOf(q) in failed && !IsWildcard(identifierOf(q)))
    ensures r in Survivors(order.requests, failed, identifierOf) <==>
            r.retried && exists q :: q in order.requests && !q.retried && r == q.(retried := true) && !(identifierOf(q) in failed && !IsWildcard(identifierOf(q)))
  {
    SurvivorFacts(order.requests, failed, identifierOf);
    if r in Survivors(order.requests, failed, identifierOf) {
      assert SurvivorOf(order.requests, failed, identifierOf, r);
    }
  }

  /**
   * A rate limit that names members holds those alone and sends back, its retry
   * unspent, every request not planned into one of them under its own name; one
   * that names none holds the whole order and sends nobody back.
   */
  lemma LimitOutcome(order: Order, limited: seq<string>, identifierOf: Request -> string, x: string, r: Request)
    ensures x in LimitHolds(order, limited) <==>
            x in limited || (limited == [] && (x in order.identifiers || exists q :: q in order.requests && q.domain == x))
    ensures r in LimitSurvivors(order, limited, identifierOf) <==>
            limited != [] && r in order.requests && !(identifierOf(r) in limited && !IsWildcard(identifierOf(r)))
  {
    ResubmittedFacts(order.requests, limited, identifierOf);
  }

  // ---- The handlers, in place ----

  function HeldNow(holds: Quarantine.Holds, now: nat): set<string> {
    set d | d in holds && Quarantine.Held(holds, d, now)
  }

  lemma HeldNowRecorded(holds: Quarantine.Holds, domain: string, kind: Quarantine.Kind, until: nat, now: nat)
    requires until > now
    ensures HeldNow(Quarantine.Recorded(holds, domain, kind, until), now) == HeldNow(holds, now) + {domain}
  {
  }

  lemma HeldNowCleared(holds: Quarantine.Holds, domain: string, now: nat)
    ensures HeldNow(Quarantine.Clear(holds, domain), now) == HeldNow(holds, now) - {domain}
  {
  }

  /** On hold now and, when a time was advertised, at every time up to it. */
  ghost predicate HeldThrough(holds: Quarantine.Holds, domain: string, now: nat, retryAfter: Option<nat>) {
    Quarantine.Held(holds, domain, now)
    && (retryAfter.Some? ==> forall t :: now <= t <= retryAfter.value ==> Quarantine.Held(holds, domain, t))
  }

  /** On hold for as long as one more failed order earns. */
  ghost predicate HeldForFailure(before: Quarantine.Holds, holds: Quarantine.Holds, domain: string, now: nat) {
    domain in holds && holds[domain].until >= now + Quarantine.Backoff(Quarantine.Acme, Quarantine.Failures(before, domain) + 1)
    && Quarantine.Failures(holds, domain) > Quarantine.Failures(before, domain)
  }

  /** Only these names' records differ. */
  ghost predicate OnlyTouches(before: Quarantine.Holds, after: Quarantine.Holds, domains: set<string>) {
    forall d :: d !in domains ==> (d in after <==> d in before) && (d in before ==> after[d] == before[d])
  }

  /** These names, and no others, were put on hold for a failure each. */
  ghost predicate FailedHolds(before: Quarantine.Holds, after: Quarantine.Holds, domains: set<string>, now: nat) {
    (forall d :: d in domains ==> HeldForFailure(before, after, d, now)) && OnlyTouches(before, after, domains)
  }

  /** These names, and no others, were put on hold through an advertised time. */
  ghost predicate LimitedHolds(before: Quarantine.Holds, after: Quarantine.Holds, domains: set<string>, now: nat, retryAfter: Option<nat>) {
    (forall d :: d in domains ==> HeldThrough(after, d, now, retryAfter)) && OnlyTouches(before, after, domains)
  }

  /** One more failure, perhaps of a name held already, which earns no less. */
  lemma FailedStep(before: Quarantine.Holds, middle: Quarantine.Holds, domains: set<string>, domain: string, now: nat)
    requires FailedHolds(before, middle, domains, now)
    ensures FailedHolds(before, Quarantine.RecordFailure(middle, domain, Quarantine.Acme, now), domains + {domain}, now)
  {
    var after := Quarantine.RecordFailure(middle, domain, Quarantine.Acme, now);
    if domain in domains {
      assert HeldForFailure(before, middle, domain, now);
    }
    assert Quarantine.Failures(middle, domain) >= Quarantine.Failures(before, domain);
    Quarantine.LadderValues(Quarantine.Failures(middle, domain) + 1);
    Quarantine.LadderValues(Quarantine.Failures(before, domain) + 1);
    forall d | d in domains + {domain} ensures HeldForFailure(before, after, d, now) {
      if d != domain {
        assert HeldForFailure(before, middle, d, now);
      }
    }
  }

  lemma FailedHeldNow(before: Quarantine.Holds, after: Quarantine.Holds, domains: set<string>, now: nat)
    requires FailedHolds(before, after, domains, now)
    ensures HeldNow(after, now) == HeldNow(before, now) + domains
  {
    forall d ensures d in HeldNow(after, now) <==> d in HeldNow(before, now) + domains {
      if d in domains {
        assert HeldForFailure(before, after, d, now);
      }
    }
  }

  lemma FailedTwice(before: Quarantine.Holds, middle: Quarantine.Holds, after: Quarantine.Holds, a: set<string>, b: set<string>, now: nat)
    requires FailedHolds(before, middle, a, now) && FailedHolds(middle, after, b, now)
    ensures FailedHolds(before, after, a + b, now)
  {
    forall d | d in a + b ensures HeldForFailure(before, after, d, now) {
      if d in a { assert HeldForFailure(before, middle, d, now); }
      if d in b { assert HeldForFailure(middle, after, d, now); }
      Quarantine.LadderValues(Quarantine.Failures(middle, d) + 1);
      Quarantine.LadderValues(Quarantine.Failures(before, d) + 1);
    }
  }

  lemma SameHold(before: Quarantine.Holds, after: Quarantine.Holds, domain: string, now: nat, retryAfter: Option<nat>)
    requires domain in before && domain in after && after[domain] == before[domain] && HeldThrough(before, domain, now, retryAfter)
    ensures HeldThrough(after, domain, now, retryAfter)
  {
    if retryAfter.Some? {
      forall t | now <= t <= retryAfter.value ensures Quarantine.Held(after, domain, t) {
        assert Quarantine.Held(before, domain, t);
      }
    }
  }

  /** Two rounds of limits with one advertised time. */
  lemma LimitedTwice(before: Quarantine.Holds, middle: Quarantine.Holds, after: Quarantine.Holds, a: set<string>, b: set<string>, now: nat, retryAfter: Option<nat>)
    requires LimitedHolds(before, middle, a, now, retryAfter) && LimitedHolds(middle, after, b, now, retryAfter)
    ensures LimitedHolds(before, after, a + b, now, retryAfter)
  {
    forall d | d in a + b ensures HeldThrough(after, d, now, retryAfter) {
      if d !in b {
        SameHold(middle, after, d, now, retryAfter);
      }
    }
  }

  method ClearAll(quarantine: Quarantine.DomainQuarantine, domains: seq<string>, now: nat)
    modifies quarantine
    ensures HeldNow(quarantine.entries, now) == HeldNow(old(quarantine.entries), now) - Elements(domains)
    ensures forall d :: d in domains ==> d !in quarantine.entries
    ensures OnlyTouches(old(quarantine.entries), quarantine.entries, Elements(domains))
  {
    for i := 0 to |domains|
      invariant HeldNow(quarantine.entries, now) == HeldNow(old(quarantine.entries), now) - Elements(domains[..i])
      invariant forall j :: 0 <= j < i ==> domains[j] !in quarantine.entries
      invariant OnlyTouches(old(quarantine.entries), quarantine.entries, Elements(domains[..i]))
    {
      HeldNowCleared(quarantine.entries, domains[i], now);
      quarantine.ClearDomain(domains[i]);
      ElementsStep(domains, i);
    }
    assert domains[..|domains|] == domains;
  }

  method HoldFailed(quarantine: Quarantine.DomainQuarantine, domain: string, now: nat)
    modifies quarantine
    ensures HeldNow(quarantine.entries, now) == HeldNow(old(quarantine.entries), now) + {domain}
    ensures quarantine.entries == Quarantine.RecordFailure(old(quarantine.entries), domain, Quarantine.Acme, now)
  {
    var backoff := quarantine.RecordDomainFailure(domain, Quarantine.Acme, now);
    HeldNowRecorded(old(quarantine.entries), domain, Quarantine.Acme, now + backoff, now);
  }

  method HoldLimited(quarantine: Quarantine.DomainQuarantine, domain: string, retryAfter: Option<nat>, now: nat)
    modifies quarantine
    ensures HeldNow(quarantine.entries, now) == HeldNow(old(quarantine.entries), now) + {domain}
    ensures LimitedHolds(old(quarantine.entries), quarantine.entries, {domain}, now, retryAfter)
  {
    var hold := quarantine.RecordDomainRateLimited(domain, retryAfter, now);
    HeldNowRecorded(old(quarantine.entries), domain, Quarantine.RateLimited, now + hold, now);
  }

  lemma ElementsStep(domains: seq<string>, i: nat)
    requires i < |domains|
    ensures Elements(domains[..i + 1]) == Elements(domains[..i]) + {domains[i]}
  {
    assert domains[..i + 1] == domains[..i] + [domains[i]];
  }

  method HoldAllFailed(quarantine: Quarantine.DomainQuarantine, domains: seq<string>, now: nat)
    modifies quarantine
    ensures HeldNow(quarantine.entries, now) == HeldNow(old(quarantine.entries), now) + Elements(domains)
    ensures FailedHolds(old(quarantine.entries), quarantine.entries, Elements(domains), now)
  {
    ghost var before := quarantine.entries;
    for i := 0 to |domains|
      invariant FailedHolds(before, quarantine.entries, Elements(domains[..i]), now)
    {
      FailedStep(before, quarantine.entries, Elements(domains[..i]), domains[i], now);
      HoldFailed(quarantine, domains[i], now);
      ElementsStep(domains, i);
    }
    assert domains[..|domains|] == domains;
    FailedHeldNow(before, quarantine.entries, Elements(domains), now);
  }

  method HoldAllLimited(quarantine: Quarantine.DomainQuarantine, domains: seq<string>, retryAfter: Option<nat>, now: nat)
    modifies quarantine
    ensures HeldNow(quarantine.entries, now) == HeldNow(old(quarantine.entries), now) + Elements(domains)
    ensures LimitedHolds(old(quarantine.entries), quarantine.entries, Elements(domains), now, retryAfter)
  {
    ghost var before := quarantine.entries;
    for i := 0 to |domains|
      invariant HeldNow(quarantine.entries, now) == HeldNow(before, now) + Elements(domains[..i])
      invariant LimitedHolds(before, quarantine.entries, Elements(domains[..i]), now, retryAfter)
    {
      ghost var middle := quarantine.entries;
      HoldLimited(quarantine, domains[i], retryAfter, now);
      LimitedTwice(before, middle, quarantine.entries, Elements(domains[..i]), {domains[i]}, now, retryAfter);
      ElementsStep(domains, i);
    }
    assert domains[..|domains|] == domains;
  }

  lemma ExhaustedStep(requests: seq<Request>, i: nat, failed: seq<string>, identifierOf: Request -> string)
    requires i < |requests|
    ensures var r := requests[i];
            Exhausted(requests[..i + 1], failed, identifierOf) == Exhausted(requests[..i], failed, identifierOf)
            + (if !Culprit(failed, identifierOf, r) && r.retried then {r.domain} else {})
  {
    assert requests[..i + 1] == requests[..i] + [requests[i]];
    assert requests[i] in requests[..i + 1];
  }

  /** The pass over a failed order's requests: hold whoever had its retry, collect the rest. */
  method CollectSurvivors(quarantine: Quarantine.DomainQuarantine, requests: seq<Request>, failed: seq<string>,
                          identifierOf: Request -> string, now: nat) returns (survivors: seq<Request>)
    modifies quarantine
    ensures survivors == Survivors(requests, failed, identifierOf)
    ensures HeldNow(quarantine.entries, now) == HeldNow(old(quarantine.entries), now) + Exhausted(requests, failed, identifierOf)
    ensures FailedHolds(old(quarantine.entries), quarantine.entries, Exhausted(requests, failed, identifierOf), now)
  {
    ghost var before := quarantine.entries;
    survivors := [];
    for i := 0 to |requests|
      invariant survivors == Survivors(requests[..i], failed, identifierOf)
      invariant FailedHolds(before, quarantine.entries, Exhausted(requests[..i], failed, identifierOf), now)
    {
      var r := requests[i];
      assert requests[..i + 1][..i] == requests[..i];
      ExhaustedStep(requests, i, failed, identifierOf);
      if !Culprit(failed, identifierOf, r) {
        if r.retried {
          FailedStep(before, quarantine.entries, Exhausted(requests[..i], failed, identifierOf), r.domain, now);
          HoldFailed(quarantine, r.domain, now);
        } else {
          survivors := survivors + [r.(retried := true)];
        }
      }
    }
    assert requests[..|requests|] == requests;
    FailedHeldNow(before, quarantine.entries, Exhausted(requests, failed, identifierOf), now);
  }

  /** Hold what failed, hold whoever had its retry, queue the rest once more. */
  method HandleObtainFailure(issuer: DomainIssuer, quarantine: Quarantine.DomainQuarantine, order: Order,
                             identifierOf: Request -> string, failed: seq<string>, now: nat)
    requires issuer.Valid()
    modifies issuer, quarantine
    ensures issuer.Valid()
    ensures HeldNow(quarantine.entries, now) == HeldNow(old(quarantine.entries), now) + FailureHolds(order, failed, identifierOf)
    ensures FailedHolds(old(quarantine.entries), quarantine.entries, FailureHolds(order, failed, identifierOf), now)
    ensures issuer.queue == Requeued(old(issuer.queue), Survivors(order.requests, failed, identifierOf))
    ensures issuer.inflight == old(issuer.inflight) - Domains(order.requests)
    ensures issuer.inflightIdentifiers == old(issuer.inflightIdentifiers)
  {
    HoldAllFailed(quarantine, failed, now);
    ghost var middle := quarantine.entries;
    var survivors := CollectSurvivors(quarantine, order.requests, failed, identifierOf, now);
    FailedTwice(old(quarantine.entries), middle, quarantine.entries, Elements(failed), Exhausted(order.requests, failed, identifierOf), now);
    issuer.FinishBatch(order.requests);
    issuer.Requeue(survivors);
  }

  /** The pass over a limited order's requests: hold everyone for an account limit, else collect the blameless. */
  method CollectResubmitted(quarantine: Quarantine.DomainQuarantine, requests: seq<Request>, accountLevel: bool, failed: seq<string>,
                            identifierOf: Request -> string, retryAfter: Option<nat>, now: nat) returns (survivors: seq<Request>)
    modifies quarantine
    ensures survivors == if accountLevel then [] else Resubmitted(requests, failed, identifierOf)
    ensures HeldNow(quarantine.entries, now) == HeldNow(old(quarantine.entries), now) + if accountLevel then Domains(requests) else {}
    ensures LimitedHolds(old(quarantine.entries), quarantine.entries, if accountLevel then Domains(requests) else {}, now, retryAfter)
  {
    survivors := [];
    for i := 0 to |requests|
      invariant LimitedHolds(old(quarantine.entries), quarantine.entries, if accountLevel then Domains(requests[..i]) else {}, now, retryAfter)
      invariant survivors == if accountLevel then [] else Resubmitted(requests[..i], failed, identifierOf)
      invariant HeldNow(quarantine.entries, now) == HeldNow(old(quarantine.entries), now) + if accountLevel then Domains(requests[..i]) else {}
    {
      var r := requests[i];
      assert requests[..i + 1][..i] == requests[..i];
      assert requests[..i + 1] == requests[..i] + [r];
      DomainsAppend(requests[..i], r);
      if accountLevel {
        ghost var middle := quarantine.entries;
        HoldLimited(quarantine, r.domain, retryAfter, now);
        LimitedTwice(old(quarantine.entries), middle, quarantine.entries, Domains(requests[..i]), {r.domain}, now, retryAfter);
      } else if !Culprit(failed, identifierOf, r) {
        survivors := survivors + [r];
      }
    }
    assert requests[..|requests|] == requests;
  }

  /** Hold the named members, or the whole order and its names when none is named; resubmit the rest unspent. */
  method HandleRateLimited(issuer: DomainIssuer, quarantine: Quarantine.DomainQuarantine, order: Order,
                           identifierOf: Request -> string, named: seq<string>, retryAfter: Option<nat>, now: nat)
    requires issuer.Valid()
    modifies issuer, quarantine
    ensures issuer.Valid()
    ensures var limited := Limited(named, order.identifiers);
            && HeldNow(quarantine.entries, now) == HeldNow(old(quarantine.entries), now) + LimitHolds(order, limited)
            && issuer.queue == Requeued(old(issuer.queue), LimitSurvivors(order, limited, identifierOf))
            && LimitedHolds(old(quarantine.entries), quarantine.entries, LimitHolds(order, limited), now, retryAfter)
    ensures issuer.inflight == old(issuer.inflight) - Domains(order.requests)
    ensures issuer.inflightIdentifiers == old(issuer.inflightIdentifiers)
  {
    var limited := RateLimitedDomains(named, order.identifiers);
    var accountLevel := limited == [];
    var failed := if accountLevel then order.identifiers else limited;
    HoldAllLimited(quarantine, failed, retryAfter, now);
    ghost var middle := quarantine.entries;
    var survivors := CollectResubmitted(quarantine, order.requests, accountLevel, failed, identifierOf, retryAfter, now);
    LimitedTwice(old(quarantine.entries), middle, quarantine.entries, Elements(failed), if accountLevel then Domains(order.requests) else {}, now, retryAfter);
    issuer.FinishBatch(order.requests);
    issuer.Requeue(survivors);
  }
}
