/**
 * A renewal among everyone else. Its orders take minutes, and between two of its
 * own lock holds the issuer, handshakes and deploys adopt certificates and register
 * names. Here a renewal is any history of the manager's actions in which its own
 * adoptions are mixed with theirs; only the renewer removes certificates, and it
 * removes the old one last.
 */
module RenewalRaces {
  import opened Text
  import opened Names
  import opened DynamicPlan
  import opened Manager
  import opened CertManager
  import opened Renewal
  import opened RenewalCoverage

  // ---- Who had the last word on a name ----

  /** The certificate an action maps a name to, if it maps it at all. */
  function Hands(s: Store, a: Action, x: string): Option<string> {
    match a
    case Adopted(cert, owners) =>
      if x in cert.domains || (x in s.domainMap && TakenOver(owners, cert, x)) then Some(cert.identifier) else None
    case Removed(_) => None
    case Mapped(domain, to) => if domain == x then Some(to) else None
  }

  ghost predicate NoRemovalBefore(actions: seq<Action>, n: nat)
    requires n <= |actions|
  {
    forall i :: 0 <= i < n ==> !actions[i].Removed?
  }

  lemma StepHands(s: Store, a: Action, x: string)
    requires !a.Removed?
    ensures x in Step(s, a).domainMap <==> x in s.domainMap || Hands(s, a, x).Some?
    ensures x in Step(s, a).domainMap ==>
              Step(s, a).domainMap[x] == if Hands(s, a, x).Some? then Hands(s, a, x).value else s.domainMap[x]
  {
    if a.Adopted? {
      AdoptMaps(s, a.owners, a.cert);
    }
  }

  /** Mapped, to another certificate than this one. */
  predicate Elsewhere(s: Store, id: string, x: string) {
    x in s.domainMap && s.domainMap[x] != id
  }

  /** At the start, or by the action before this point, the name was put elsewhere. */
  predicate PutElsewhere(run: seq<Store>, actions: seq<Action>, id: string, x: string, i: nat)
    requires |run| == |actions| + 1 && i <= |actions|
  {
    if i == 0 then Elsewhere(run[0], id, x)
    else Hands(run[i - 1], actions[i - 1], x).Some? && Hands(run[i - 1], actions[i - 1], x) != Some(id)
  }

  /** Someone put the name elsewhere, and nobody handed it to this certificate after that. */
  ghost predicate HandedOn(run: seq<Store>, actions: seq<Action>, id: string, x: string, n: nat)
    requires |run| == |actions| + 1 && n <= |actions|
  {
    exists i :: 0 <= i <= n && PutElsewhere(run, actions, id, x, i)
                && forall j :: i <= j < n ==> Hands(run[j], actions[j], x) != Some(id)
  }

  lemma {:induction false} ElsewhereIff(run: seq<Store>, actions: seq<Action>, id: string, x: string, n: nat)
    requires IsRun(run, actions) && n <= |actions| && NoRemovalBefore(actions, n)
    ensures Elsewhere(run[n], id, x) <==> HandedOn(run, actions, id, x, n)
  {
    if n == 0 {
      assert PutElsewhere(run, actions, id, x, 0) <==> Elsewhere(run[0], id, x);
    } else {
      ElsewhereIff(run, actions, id, x, n - 1);
      StepHands(run[n - 1], actions[n - 1], x);
      HandedOnStep(run, actions, id, x, n);
    }
  }

  lemma HandedOnStep(run: seq<Store>, actions: seq<Action>, id: string, x: string, n: nat)
    requires |run| == |actions| + 1 && 0 < n <= |actions|
    ensures HandedOn(run, actions, id, x, n) <==>
            || PutElsewhere(run, actions, id, x, n)
            || (HandedOn(run, actions, id, x, n - 1) && Hands(run[n - 1], actions[n - 1], x) != Some(id))
  {
    if PutElsewhere(run, actions, id, x, n) {
      assert HandedOn(run, actions, id, x, n);
    } else if HandedOn(run, actions, id, x, n) {
      var i :| 0 <= i <= n && PutElsewhere(run, actions, id, x, i)
               && forall j :: i <= j < n ==> Hands(run[j], actions[j], x) != Some(id);
      assert i <= n - 1;
      assert HandedOn(run, actions, id, x, n - 1);
    }
  }

  /** Until the removal nothing is unmapped. */
  lemma {:induction false} StaysMapped(run: seq<Store>, actions: seq<Action>, x: string, i: nat, n: nat)
    requires IsRun(run, actions) && i <= n <= |actions| && NoRemovalBefore(actions, n) && x in run[i].domainMap
    ensures x in run[n].domainMap
  {
    if i < n {
      StaysMapped(run, actions, x, i, n - 1);
      StepHands(run[n - 1], actions[n - 1], x);
    }
  }

  lemma ValidOrClash(digest: seq<string> -> string, run: seq<Store>, actions: seq<Action>, d: string)
    requires HexDigests(digest) && IsRun(run, actions) && ValidStore(run[0]) && IssuedIDs(digest, actions)
    ensures Clash(run[0], actions) || (Served(run[|actions|], d) <==> Answered(run[|actions|], d))
  {
    var last := run[|actions|];
    RunStaysValid(digest, run, actions, |actions|);
    if ValidStore(last) {
      if Answered(last, d) {
        AnsweredIsServed(last, d);
      } else {
        NotAnsweredNotServed(last, d);
      }
    }
  }

  /**
   * Exactly which names survive the removal, whoever acted before it and in
   * whatever order: those that were handed on, themselves or the wildcard above
   * them, and not handed back to the certificate that goes -- unless the history
   * holds a clash of digests.
   */
  lemma RemovalKeepsIff(digest: seq<string> -> string, run: seq<Store>, actions: seq<Action>, id: string, n: nat, d: string)
    requires HexDigests(digest) && IsRun(run, actions) && ValidStore(run[0]) && IssuedIDs(digest, actions)
    requires |actions| == n + 1 && actions[n] == Removed(id) && NoRemovalBefore(actions, n)
    ensures || Clash(run[0], actions)
            || (Served(run[n + 1], d) <==>
                || HandedOn(run, actions, id, d, n)
                || (WildcardParent(d).Some? && HandedOn(run, actions, id, WildcardParent(d).value, n)))
  {
    ValidOrClash(digest, run, actions, d);
    ElsewhereIff(run, actions, id, d, n);
    if WildcardParent(d).Some? {
      ElsewhereIff(run, actions, id, WildcardParent(d).value, n);
    }
    assert run[n + 1] == Remove(run[n], id);
  }

  // ---- The renewal ----

  /** This action is the adoption of the renewal's order. */
  predicate AdoptsOrder(r: Renewing, directory: string, order: seq<string>, a: Action) {
    a.Adopted? && a.cert.domains == order && a.cert.identifier == SanCertID(r.digest, order) && a.cert.directory == directory
  }

  ghost predicate AdoptedBefore(r: Renewing, directory: string, order: seq<string>, actions: seq<Action>, n: nat)
    requires n <= |actions|
  {
    exists i :: 0 <= i < n && AdoptsOrder(r, directory, order, actions[i])
  }

  /** Every order has a successor, and none of them is the old certificate. */
  ghost predicate Completed(r: Renewing, parts: seq<Part>, actions: seq<Action>, n: nat)
    requires n <= |actions|
  {
    && (forall j, k :: 0 <= j < |parts| && 0 <= k < |parts[j].orders| ==>
          AdoptedBefore(r, parts[j].directory, parts[j].orders[k], actions, n))
    && !Reissued(r, parts)
  }

  /** A renewal's time: any actions of anyone, the only removal its own, at the end, once it is complete. */
  ghost predicate RenewalHistory(r: Renewing, parts: seq<Part>, run: seq<Store>, actions: seq<Action>) {
    && IsRun(run, actions)
    && forall i :: 0 <= i < |actions| && actions[i].Removed? ==>
         i == |actions| - 1 && actions[i].id == r.oldID && Completed(r, parts, actions, i)
  }

  /** After one of the renewal's adoptions took a name, some action handed it back to the old certificate. */
  ghost predicate HandedBack(r: Renewing, run: seq<Store>, actions: seq<Action>, x: string)
    requires |run| == |actions| + 1
  {
    exists i, j :: 0 <= i < j < |actions| && actions[i].Adopted? && x in actions[i].cert.domains
                   && actions[i].cert.identifier != r.oldID && Hands(run[j], actions[j], x) == Some(r.oldID)
  }

  lemma AskedIsHandedOn(r: Renewing, parts: seq<Part>, run: seq<Store>, actions: seq<Action>, n: nat, x: string)
    requires IsRun(run, actions) && n <= |actions| && Completed(r, parts, actions, n) && Asked(parts, x)
    ensures HandedOn(run, actions, r.oldID, x, n) || HandedBack(r, run, actions, x)
  {
    var j, k :| 0 <= j < |parts| && 0 <= k < |parts[j].orders| && x in parts[j].orders[k];
    assert AdoptedBefore(r, parts[j].directory, parts[j].orders[k], actions, n);
    var i :| 0 <= i < n && AdoptsOrder(r, parts[j].directory, parts[j].orders[k], actions[i]);
    assert actions[i].cert.identifier != r.oldID;
    assert PutElsewhere(run, actions, r.oldID, x, i + 1);
  }

  /** An identifier that was mapped when the renewal began, or that it asked for, outlives it. */
  lemma AskedOutlives(r: Renewing, parts: seq<Part>, run: seq<Store>, actions: seq<Action>, d: string, x: string)
    requires RenewalHistory(r, parts, run, actions) && Asked(parts, x) && d in run[0].domainMap
    requires x == d || MatchesWildcard(x, d)
    ensures Answered(run[|actions|], d) || HandedBack(r, run, actions, x)
  {
    var n := |actions| - 1;
    if n >= 0 && actions[n].Removed? {
      AskedIsHandedOn(r, parts, run, actions, n, x);
      ElsewhereIff(run, actions, r.oldID, x, n);
      assert run[n + 1] == Remove(run[n], r.oldID);
    } else {
      StaysMapped(run, actions, d, 0, |actions|);
    }
  }

  /**
   * Whatever anyone does between the renewal's orders, and whichever of them
   * succeed: a renewable name that is not blocked and collapses safely is served
   * afterwards, unless its identifier was handed back to the old certificate after
   * the renewal had adopted it -- or the history holds a clash of digests.
   */
  lemma RenewalKeepsAmidOthers(r: Renewing, g: Setting, batch: seq<string>, planned: seq<string>, run: seq<Store>, actions: seq<Action>, d: string)
    requires RenewalHistory(r, PlanParts(g.solvers, g.directoryOf, planned), run, actions)
    requires HexDigests(r.digest) && ValidStore(run[0]) && IssuedIDs(r.digest, actions) && r.oldID == g.cert.identifier
    requires Decide(run[0], r.owners, g.cert, g.held, g.unreachable, g.now).Proceed?
    requires PlannedFrom(g, Decide(run[0], r.owners, g.cert, g.held, g.unreachable, g.now).domains, batch, planned)
    requires d in RenewableDomains(run[0], r.owners, g.cert) && !Blocked(g, d) && CollapsesSafely(g, d)
    ensures || Served(run[|actions|], d) || Clash(run[0], actions)
            || HandedBack(r, run, actions, PlanIdentifier(g.solvers, g.prefer, g.held, d))
  {
    var x := PlanIdentifier(g.solvers, g.prefer, g.held, d);
    LeftOutOnlyLate(run[0], r.owners, g.cert, g.held, g.unreachable, g.now);
    assert x in planned;
    PlannedIsAsked(g.solvers, g.directoryOf, planned, x);
    PlanCovers(g, d, x);
    AskedOutlives(r, PlanParts(g.solvers, g.directoryOf, planned), run, actions, d, x);
    ValidOrClash(r.digest, run, actions, d);
  }

  /** While any order is without a successor nothing is lost, not even a name registered meanwhile. */
  lemma UnfinishedKeepsAll(r: Renewing, parts: seq<Part>, run: seq<Store>, actions: seq<Action>, i: nat, d: string)
    requires RenewalHistory(r, parts, run, actions) && HexDigests(r.digest) && ValidStore(run[0]) && IssuedIDs(r.digest, actions)
    requires i <= |actions| && Answered(run[i], d) && NoRemovalBefore(actions, |actions|)
    ensures Served(run[|actions|], d) || Clash(run[0], actions)
  {
    var x := if d in run[i].domainMap then d else WildcardParent(d).value;
    StaysMapped(run, actions, x, i, |actions|);
    ValidOrClash(r.digest, run, actions, d);
  }

  // ---- The renewal alone is such a history ----

  /** One more action at the end of a history. */
  lemma Extended(run: seq<Store>, actions: seq<Action>, a: Action)
    requires IsRun(run, actions) && Enabled(run[|actions|], a)
    ensures IsRun(run + [Step(run[|actions|], a)], actions + [a])
  {
    var run', actions' := run + [Step(run[|actions|], a)], actions + [a];
    forall i | 0 <= i < |actions'| ensures Enabled(run'[i], actions'[i]) && run'[i + 1] == Step(run'[i], actions'[i]) {
      if i < |actions| {
        assert run'[i] == run[i] && run'[i + 1] == run[i + 1] && actions'[i] == actions[i];
      }
    }
  }

  /** A history that ends where the fold stands and removes nothing. */
  ghost predicate Traces(p: Progress, run: seq<Store>, actions: seq<Action>) {
    IsRun(run, actions) && run[|actions|] == p.store && NoRemovalBefore(actions, |actions|)
  }

  /** If all went well so far, it holds the adoption of each of these orders. */
  ghost predicate TracesOrders(r: Renewing, p: Progress, directory: string, orders: seq<seq<string>>, actions: seq<Action>) {
    p.renewedAll ==> forall k :: 0 <= k < |orders| ==> AdoptedBefore(r, directory, orders[k], actions, |actions|)
  }

  lemma StillAdopted(r: Renewing, directory: string, order: seq<string>, before: seq<Action>, after: seq<Action>)
    requires before <= after && AdoptedBefore(r, directory, order, before, |before|)
    ensures AdoptedBefore(r, directory, order, after, |after|)
  {
    var i :| 0 <= i < |before| && AdoptsOrder(r, directory, order, before[i]);
    assert after[i] == before[i];
  }

  lemma OrderTraced(r: Renewing, directory: string, order: seq<string>, outcome: Outcome, p: Progress, run: seq<Store>, actions: seq<Action>)
    returns (run': seq<Store>, actions': seq<Action>)
    requires Traces(p, run, actions)
    ensures var q := RenewOrder(r, directory, order, outcome, p);
            && Traces(q, run', actions') && actions <= actions' && run'[0] == run[0]
            && (q.renewedAll ==> p.renewedAll && AdoptedBefore(r, directory, order, actions', |actions'|))
  {
    if outcome.Adopted? {
      var a := Action.Adopted(NewCert(r, directory, order, outcome.notAfter), r.owners);
      Extended(run, actions, a);
      run', actions' := run + [Step(run[|actions|], a)], actions + [a];
      assert AdoptsOrder(r, directory, order, actions'[|actions|]);
    } else {
      run', actions' := run, actions;
    }
  }

  lemma {:induction false} PartTraced(r: Renewing, directory: string, orders: seq<seq<string>>, outcome: nat -> Outcome, p: Progress, run: seq<Store>, actions: seq<Action>)
    returns (run': seq<Store>, actions': seq<Action>)
    requires Traces(p, run, actions)
    ensures var q := RenewPart(r, directory, orders, outcome, p).0;
            && Traces(q, run', actions') && actions <= actions' && run'[0] == run[0]
            && (q.renewedAll ==> p.renewedAll) && TracesOrders(r, q, directory, orders, actions')
  {
    if orders == [] {
      run', actions' := run, actions;
    } else {
      var n := |orders| - 1;
      var run1, actions1 := PartTraced(r, directory, orders[..n], outcome, p, run, actions);
      var (before, stopped) := RenewPart(r, directory, orders[..n], outcome, p);
      PartFailureStays(r, directory, orders[..n], outcome, p);
      if stopped {
        run', actions' := run1, actions1;
      } else {
        run', actions' := OrderTraced(r, directory, orders[n], outcome(n), before, run1, actions1);
        OneMoreTraced(r, RenewOrder(r, directory, orders[n], outcome(n), before), before, directory, orders, actions1, actions');
      }
    }
  }

  lemma OneMoreTraced(r: Renewing, q: Progress, before: Progress, directory: string, orders: seq<seq<string>>, actions: seq<Action>, actions': seq<Action>)
    requires orders != [] && TracesOrders(r, before, directory, orders[..|orders| - 1], actions) && actions <= actions'
    requires q.renewedAll ==> before.renewedAll && AdoptedBefore(r, directory, orders[|orders| - 1], actions', |actions'|)
    ensures TracesOrders(r, q, directory, orders, actions')
  {
    if q.renewedAll {
      forall k | 0 <= k < |orders| - 1 ensures AdoptedBefore(r, directory, orders[k], actions', |actions'|) {
        assert orders[..|orders| - 1][k] == orders[k];
        StillAdopted(r, directory, orders[k], actions, actions');
      }
    }
  }

  lemma {:induction false} PartsTraced(r: Renewing, parts: seq<Part>, outcome: (nat, nat) -> Outcome, s: Store)
    returns (run: seq<Store>, actions: seq<Action>)
    ensures var q := RenewParts(r, parts, outcome, Begin(s, {}));
            && Traces(q, run, actions) && run[0] == s
            && forall j :: 0 <= j < |parts| ==> TracesOrders(r, q, parts[j].directory, parts[j].orders, actions)
  {
    if parts == [] {
      run, actions := [s], [];
    } else {
      var n := |parts| - 1;
      var run1, actions1 := PartsTraced(r, parts[..n], outcome, s);
      var before := RenewParts(r, parts[..n], outcome, Begin(s, {}));
      run, actions := PartTraced(r, parts[n].directory, parts[n].orders, (k: nat) => outcome(n, k), before, run1, actions1);
      forall j | 0 <= j < n ensures TracesOrders(r, RenewParts(r, parts, outcome, Begin(s, {})), parts[j].directory, parts[j].orders, actions) {
        assert parts[..n][j] == parts[j];
        EarlierTraced(r, RenewParts(r, parts, outcome, Begin(s, {})), before, parts[j].directory, parts[j].orders, actions1, actions);
      }
    }
  }

  lemma EarlierTraced(r: Renewing, q: Progress, before: Progress, directory: string, orders: seq<seq<string>>, actions: seq<Action>, actions': seq<Action>)
    requires TracesOrders(r, before, directory, orders, actions) && actions <= actions' && (q.renewedAll ==> before.renewedAll)
    ensures TracesOrders(r, q, directory, orders, actions')
  {
    if q.renewedAll {
      forall k | 0 <= k < |orders| ensures AdoptedBefore(r, directory, orders[k], actions', |actions'|) {
        StillAdopted(r, directory, orders[k], actions, actions');
      }
    }
  }

  /** The renewal with nobody else about, whatever its outcomes, is one of the histories. */
  lemma AloneIsHistory(r: Renewing, parts: seq<Part>, outcome: (nat, nat) -> Outcome, s: Store)
    returns (run: seq<Store>, actions: seq<Action>)
    ensures RenewalHistory(r, parts, run, actions) && run[0] == s && run[|actions|] == Renewed(r, parts, outcome, s)
  {
    var p := RenewParts(r, parts, outcome, Begin(s, {}));
    run, actions := PartsTraced(r, parts, outcome, s);
    if p.renewedAll && r.oldID !in p.newIDs {
      var n := |actions|;
      AllTraced(r, parts, outcome, s, p, actions);
      ghost var a := Removed(r.oldID);
      Extended(run, actions, a);
      run, actions := run + [Step(run[n], a)], actions + [a];
      forall j, k | 0 <= j < |parts| && 0 <= k < |parts[j].orders|
        ensures AdoptedBefore(r, parts[j].directory, parts[j].orders[k], actions, n)
      {
        assert AdoptedBefore(r, parts[j].directory, parts[j].orders[k], actions[..n], n);
        var i :| 0 <= i < n && AdoptsOrder(r, parts[j].directory, parts[j].orders[k], actions[..n][i]);
        assert actions[i] == actions[..n][i];
      }
    }
  }

  lemma AllTraced(r: Renewing, parts: seq<Part>, outcome: (nat, nat) -> Outcome, s: Store, p: Progress, actions: seq<Action>)
    requires p == RenewParts(r, parts, outcome, Begin(s, {})) && p.renewedAll && r.oldID !in p.newIDs
    requires forall j :: 0 <= j < |parts| ==> TracesOrders(r, p, parts[j].directory, parts[j].orders, actions)
    ensures Completed(r, parts, actions, |actions|)
  {
    forall j, k | 0 <= j < |parts| && 0 <= k < |parts[j].orders|
      ensures AdoptedBefore(r, parts[j].directory, parts[j].orders[k], actions, |actions|) && SanCertID(r.digest, parts[j].orders[k]) != r.oldID
    {
      assert TracesOrders(r, p, parts[j].directory, parts[j].orders, actions);
      PartsIDs(r, parts, outcome, Begin(s, {}), j, k);
    }
  }

  // ---- Two losses ----

  lemma KeepFirst(a: string, b: string, keep: string -> bool)
    requires keep(a) && !keep(b)
    ensures Keep([a, b], keep) == [a]
  {
    assert [a, b][..1] == [a];
    KeepOne(a, keep);
  }

  /** A certificate of two names, the only one stored. */
  function TwoNames(cert: Cert, a: string, b: string): Store {
    Store(map[cert.identifier := cert], map[a := cert.identifier, b := cert.identifier])
  }

  lemma TwoNamesServed(digest: seq<string> -> string, cert: Cert, a: string, b: string)
    requires HexDigests(digest) && cert.domains == [a, b] && cert.identifier == SanCertID(digest, [a, b])
    ensures ValidStore(TwoNames(cert, a, b)) && Served(TwoNames(cert, a, b), b)
  {
    SanDirectories(digest, [a, b], [a, b]);
    assert [a, b][0] == a && [a, b][1] == b;
    assert IdentifiersCover([a, b], a) && IdentifiersCover([a, b], b);
  }

  /** Only the first is anyone's, so the renewal is for that alone. */
  lemma FirstIsRenewed(o: Owners, cert: Cert, held: string -> bool, unreachable: string -> bool, now: int, a: string, b: string)
    requires a != b && !IsWildcard(a) && !IsWildcard(b) && cert.domains == [a, b] && Concrete(o, a) && !Concrete(o, b)
    requires !held(a) && !unreachable(a)
    ensures Decide(TwoNames(cert, a, b), o, cert, held, unreachable, now) == Proceed([a])
  {
    var s := TwoNames(cert, a, b);
    KeepFirst(a, b, (d: string) => Renewable(s, o, cert, d));
    DecideOne(s, o, cert, held, unreachable, now, a);
  }

  /** One order, adopted, and the removal. */
  lemma LoneHistory(r: Renewing, s: Store, o: Owners, next: Cert)
    requires next.identifier == SanCertID(r.digest, next.domains) && next.identifier != r.oldID
    ensures var s1 := Adopt(s, o, next);
            RenewalHistory(r, [Part(next.directory, [next.domains])], [s, s1, Remove(s1, r.oldID)], [Action.Adopted(next, o), Removed(r.oldID)])
  {
    var parts, actions := [Part(next.directory, [next.domains])], [Action.Adopted(next, o), Removed(r.oldID)];
    assert AdoptsOrder(r, next.directory, next.domains, actions[0]);
    assert AdoptedBefore(r, parts[0].directory, parts[0].orders[0], actions, 1);
  }

  /** A name the new certificate neither lists nor covers goes with the old one. */
  lemma UnlistedIsLost(s: Store, o: Owners, next: Cert, oldID: string, d: string)
    requires d in s.domainMap && s.domainMap[d] == oldID && oldID != ""
    requires d !in next.domains && !CoveredByWildcard(next.domains, d) && next.identifier != oldID
    requires WildcardParent(d).Some? ==> WildcardParent(d).value !in s.domainMap && WildcardParent(d).value !in next.domains
    ensures !Answered(Remove(Adopt(s, o, next), oldID), d)
  {
    AdoptMaps(s, o, next);
  }

  /**
   * A host registered while a certificate that lists it is renewed without it is
   * lost: registration finds the old certificate good and leaves the host off
   * pending, and the removal then unmaps it.
   */
  lemma RegisteredMeanwhileIsLost(r: Renewing, cert: Cert, next: Cert, held: string -> bool, unreachable: string -> bool, now: int, a: string, b: string, service: string)
    requires HexDigests(r.digest) && a != b && !IsWildcard(a) && !IsWildcard(b) && r.digest([a]) != r.digest([a, b])
    requires cert.domains == [a, b] && cert.identifier == SanCertID(r.digest, [a, b]) && r.oldID == cert.identifier
    requires next.domains == [a] && next.identifier == SanCertID(r.digest, [a])
    requires Concrete(r.owners, a) && !Concrete(r.owners, b) && !held(a) && !unreachable(a)
    requires Satisfies(r.owners, cert, service, now)
    ensures var s, o := TwoNames(cert, a, b), r.owners.(registered := r.owners.registered[b := service]);
            var s1 := Adopt(s, o, next);
            && ValidStore(s) && Served(s, b) && Decide(s, r.owners, cert, held, unreachable, now) == Proceed([a])
            && RegisterOutcome(s, s, o, o.pending, b, service, now)
            && RenewalHistory(r, [Part(next.directory, [[a]])], [s, s1, Remove(s1, r.oldID)], [Action.Adopted(next, o), Removed(r.oldID)])
            && !Answered(Remove(s1, r.oldID), b)
  {
    var s, o := TwoNames(cert, a, b), r.owners.(registered := r.owners.registered[b := service]);
    TwoNamesServed(r.digest, cert, a, b);
    FirstIsRenewed(r.owners, cert, held, unreachable, now, a, b);
    RegistrationSatisfied(r.owners, o, cert, a, b, service, now);
    DifferentIDs(r.digest, [a], [a, b]);
    LoneHistory(r, s, o, next);
    ConcreteIsUnlisted(s, next, a, b);
    UnlistedIsLost(s, o, next, r.oldID, b);
  }

  lemma RegistrationSatisfied(before: Owners, o: Owners, cert: Cert, a: string, b: string, service: string, now: int)
    requires Satisfies(before, cert, service, now) && o.directories == before.directories && o.runDirectory == before.runDirectory
    requires cert.identifier != ""
    ensures RegisterOutcome(TwoNames(cert, a, b), TwoNames(cert, a, b), o, o.pending, b, service, now)
  {
    assert Registered(TwoNames(cert, a, b), o, b, service, now);
  }

  lemma ConcreteIsUnlisted(s: Store, next: Cert, a: string, b: string)
    requires next.domains == [a] && a != b && !IsWildcard(a) && !IsWildcard(b) && s.domainMap.Keys == {a, b}
    ensures b !in next.domains && !CoveredByWildcard(next.domains, b)
    ensures WildcardParent(b).Some? ==> WildcardParent(b).value !in s.domainMap && WildcardParent(b).value !in next.domains
  {
    if WildcardParent(b).Some? {
      assert WildcardParent(b).value[..2] == "*.";
    }
  }

  /** One name and its certificate. */
  function OneName(cert: Cert, d: string): Store {
    Store(map[cert.identifier := cert], map[d := cert.identifier])
  }

  /** A renewal topped up with a second name, someone else's order for the first alone, and the removal. */
  function ToppedUp(r: Renewing, next: Cert, again: Cert): seq<Action> {
    [Action.Adopted(next, r.owners), Action.Adopted(again, r.owners), Removed(r.oldID)]
  }

  /**
   * And the name may be handed back: a renewal topped up with a second name adopts
   * its order, an order of the issuer for the first name alone then takes the old
   * identifier, and the removal discards that new certificate and unmaps the name,
   * though the renewed certificate that lists it stays stored.
   */
  lemma ReissuedMeanwhileIsLost(r: Renewing, cert: Cert, next: Cert, again: Cert, d: string, e: string, run: seq<Store>)
    requires HexDigests(r.digest) && d != e && !IsWildcard(d) && !IsWildcard(e) && r.digest([d, e]) != r.digest([d])
    requires cert.domains == [d] && cert.identifier == SanCertID(r.digest, [d]) && r.oldID == cert.identifier
    requires next.domains == [d, e] && next.identifier == SanCertID(r.digest, [d, e])
    requires again.domains == [d] && again.identifier == cert.identifier
    requires IsRun(run, ToppedUp(r, next, again)) && run[0] == OneName(cert, d)
    ensures ValidStore(run[0]) && Served(run[0], d) && IssuedIDs(r.digest, ToppedUp(r, next, again)) && !Clash(run[0], ToppedUp(r, next, again))
    ensures RenewalHistory(r, [Part(next.directory, [[d, e]])], run, ToppedUp(r, next, again)) && HandedBack(r, run, ToppedUp(r, next, again), d)
    ensures !Answered(run[3], d) && next.identifier in run[3].certs && run[3].certs[next.identifier] == next
  {
    LoneStore(r.digest, run[0], cert, d);
    DifferentIDs(r.digest, [d, e], [d]);
    ToppedUpClash(r, run[0], cert, next, again);
    ToppedUpHistory(r, run, next, again);
    ToppedUpBack(r, run, next, again, d);
    ToppedUpLost(r, run, next, again, d, e);
  }

  lemma ToppedUpClash(r: Renewing, s: Store, cert: Cert, next: Cert, again: Cert)
    requires HexDigests(r.digest) && next.identifier != cert.identifier && s.certs == map[cert.identifier := cert]
    requires cert.identifier == SanCertID(r.digest, cert.domains) && again.domains == cert.domains && again.identifier == cert.identifier
    requires next.identifier == SanCertID(r.digest, next.domains)
    ensures IssuedIDs(r.digest, ToppedUp(r, next, again)) && !Clash(s, ToppedUp(r, next, again))
  {
    SanDirectories(r.digest, cert.domains, next.domains);
  }

  lemma ToppedUpHistory(r: Renewing, run: seq<Store>, next: Cert, again: Cert)
    requires IsRun(run, ToppedUp(r, next, again)) && next.identifier == SanCertID(r.digest, next.domains) && next.identifier != r.oldID
    ensures RenewalHistory(r, [Part(next.directory, [next.domains])], run, ToppedUp(r, next, again))
  {
    var parts, actions := [Part(next.directory, [next.domains])], ToppedUp(r, next, again);
    assert AdoptsOrder(r, next.directory, next.domains, actions[0]);
    assert AdoptedBefore(r, parts[0].directory, parts[0].orders[0], actions, 2);
  }

  lemma ToppedUpBack(r: Renewing, run: seq<Store>, next: Cert, again: Cert, d: string)
    requires |run| == 4 && d in next.domains && d in again.domains && again.identifier == r.oldID && next.identifier != r.oldID
    ensures HandedBack(r, run, ToppedUp(r, next, again), d)
  {
    var actions := ToppedUp(r, next, again);
    assert d in actions[0].cert.domains && Hands(run[1], actions[1], d) == Some(r.oldID);
  }

  lemma ToppedUpLost(r: Renewing, run: seq<Store>, next: Cert, again: Cert, d: string, e: string)
    requires IsRun(run, ToppedUp(r, next, again)) && run[0].domainMap.Keys == {d} && !IsWildcard(d) && !IsWildcard(e)
    requires next.domains == [d, e] && again.domains == [d] && again.identifier == r.oldID && next.identifier != r.oldID
    ensures !Answered(run[3], d) && next.identifier in run[3].certs && run[3].certs[next.identifier] == next
  {
    var actions := ToppedUp(r, next, again);
    AdoptionAdds(run[0], actions[0], run[1]);
    AdoptionAdds(run[1], actions[1], run[2]);
    assert again.domains[0] == d;
    assert run[3] == Step(run[2], actions[2]);
    UnmappedIsLost(run[2], r.oldID, d);
  }

  lemma AdoptionAdds(s: Store, a: Action, after: Store)
    requires a.Adopted? && after == Step(s, a)
    ensures after.certs == s.certs[a.cert.identifier := a.cert]
    ensures forall x :: x in after.domainMap ==> x in s.domainMap || x in a.cert.domains
    ensures forall x :: x in a.cert.domains ==> x in after.domainMap && after.domainMap[x] == a.cert.identifier
  {
    AdoptMaps(s, a.owners, a.cert);
  }

  lemma UnmappedIsLost(s: Store, oldID: string, d: string)
    requires d in s.domainMap && s.domainMap[d] == oldID && forall x :: x in s.domainMap ==> !IsWildcard(x)
    ensures !Answered(Remove(s, oldID), d)
  {
    if WildcardParent(d).Some? {
      assert WildcardParent(d).value[..2] == "*.";
    }
  }
}
