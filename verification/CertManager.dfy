/** The manager's maps in place, and every history of them. */
module CertManager {
  import opened Text
  import opened Names
  import opened Manager

  /** A stored certificate that satisfies a service's registration of a name. */
  predicate Satisfies(o: Owners, cert: Cert, service: string, now: int) {
    cert.notAfter - now > DAY && NormalizeDirectory(o, cert.directory) == DirectoryFor(o, service)
  }

  /** More than a day to go, and from where the service wants its certificates. */
  lemma SatisfiesIff(o: Owners, cert: Cert, service: string, now: int)
    ensures Satisfies(o, cert, service, now) <==> cert.notAfter - now > 24 * 60 * 60 && IssuedFor(o, cert, service)
  {
    IssuedForIff(o, cert, service);
  }

  /** The certificate that answers for a name satisfies the registration. */
  predicate Registered(s: Store, o: Owners, domain: string, service: string, now: int) {
    var id := CertIDCovering(s, domain);
    id != "" && id in s.certs && Satisfies(o, s.certs[id], service, now)
  }

  predicate Lists(s: Store, o: Owners, id: string, domain: string, service: string, now: int)
    requires id in s.certs
  {
    domain in s.certs[id].domains && Satisfies(o, s.certs[id], service, now)
  }

  /** Answered by a fitting certificate already, mapped to one that lists it, or left waiting. */
  ghost predicate RegisterOutcome(before: Store, after: Store, o: Owners, pending: map<string, string>, domain: string, service: string, now: int) {
    if Registered(before, o, domain, service, now) then after == before && pending == o.pending
    else if exists id :: id in before.certs && Lists(before, o, id, domain, service, now) then
      && pending == o.pending && domain in after.domainMap
      && after == before.(domainMap := before.domainMap[domain := after.domainMap[domain]])
      && after.domainMap[domain] in before.certs && Lists(before, o, after.domainMap[domain], domain, service, now)
    else after == before && pending == o.pending[domain := service]
  }

  lemma MapListed(s: Store, o: Owners, domain: string, id: string, service: string, now: int)
    requires ValidStore(s) && id in s.certs && Lists(s, o, id, domain, service, now) && !Registered(s, o, domain, service, now)
    ensures var after := s.(domainMap := s.domainMap[domain := id]);
            ValidStore(after) && RegisterOutcome(s, after, o, o.pending, domain, service, now)
  {
    MapValid(s, domain, id);
  }

  predicate TakenBy(o: Owners, managed: Cert, wildcard: string, d: string) {
    !IsWildcard(d) && MatchesWildcard(wildcard, d) && OwnerAccepts(o, managed, d)
  }

  class SANCertManager {
    var certificates: map<string, Cert>
    var domainToCert: map<string, string>
    var registeredDomains: map<string, string>
    var dynamicDomains: map<string, string>
    var pendingDomains: map<string, string>
    var serviceDirectories: map<string, string>
    const directory: string

    function AsStore(): Store
      reads this
    {
      Store(certificates, domainToCert)
    }

    function AsOwners(): Owners
      reads this
    {
      Owners(registeredDomains, dynamicDomains, pendingDomains, serviceDirectories, directory)
    }

    constructor (runDirectory: string)
      ensures AsStore() == Store(map[], map[]) && ValidStore(AsStore())
      ensures AsOwners() == Owners(map[], map[], map[], map[], runDirectory)
    {
      certificates, domainToCert := map[], map[];
      registeredDomains, dynamicDomains, pendingDomains, serviceDirectories := map[], map[], map[], map[];
      directory := runDirectory;
    }

    /** Installs an issued certificate and hands it every concrete name its wildcards take over. */
    method AdoptCertificateAt(digest: seq<string> -> string, sortedDomains: seq<string>, issuedBy: string, notAfter: int) returns (managed: Cert)
      modifies this`certificates, this`domainToCert
      ensures managed == Cert(SanCertID(digest, sortedDomains), sortedDomains, notAfter, issuedBy)
      ensures AsStore() == Adopt(old(AsStore()), AsOwners(), managed)
    {
      var certID := SanCertID(digest, sortedDomains);
      managed := Cert(certID, sortedDomains, notAfter, issuedBy);
      certificates := certificates[certID := managed];
      for i := 0 to |sortedDomains|
        invariant certificates == old(certificates)[certID := managed]
        invariant forall d :: d in domainToCert <==> d in old(domainToCert) || d in sortedDomains[..i]
        invariant forall d :: d in domainToCert ==>
                    domainToCert[d] == if d in sortedDomains[..i] then certID else old(domainToCert)[d]
      {
        assert sortedDomains[..i + 1] == sortedDomains[..i] + [sortedDomains[i]];
        domainToCert := domainToCert[sortedDomains[i] := certID];
      }
      assert sortedDomains[..|sortedDomains|] == sortedDomains;
      assert AsStore() == Claimed(old(AsStore()), managed);
      AdoptWildcardCoverage(managed);
    }

    method AdoptWildcardCoverage(managed: Cert)
      modifies this`domainToCert
      ensures AsStore() == Takeover(old(AsStore()), AsOwners(), managed)
    {
      for i := 0 to |managed.domains|
        invariant domainToCert.Keys == old(domainToCert).Keys
        invariant forall d :: d in domainToCert ==> 
                    domainToCert[d] == if TakenOver(AsOwners(), managed.(domains := managed.domains[..i]), d) then managed.identifier else old(domainToCert)[d]
      {
        TakenOverStep(AsOwners(), managed, i);
        if IsWildcard(managed.domains[i]) {
          TakeOverBy(managed, managed.domains[i]);
        }
      }
      assert managed.domains[..|managed.domains|] == managed.domains;
      assert managed.(domains := managed.domains) == managed;
    }

    /** One wildcard's pass over the mapped names. */
    method TakeOverBy(managed: Cert, wildcard: string)
      modifies this`domainToCert
      ensures domainToCert.Keys == old(domainToCert).Keys
      ensures forall d :: d in domainToCert ==>
                domainToCert[d] == if TakenBy(AsOwners(), managed, wildcard, d)
                then managed.identifier else old(domainToCert)[d]
    {
      var owners := AsOwners();
      domainToCert := Reassign(domainToCert, (d: string) => TakenBy(owners, managed, wildcard, d), managed.identifier);
    }

    method RemoveCertificate(certID: string)
      modifies this`certificates, this`domainToCert
      ensures AsStore() == Remove(old(AsStore()), certID)
    {
      certificates := certificates - {certID};
      var rest := domainToCert.Keys;
      while rest != {}
        invariant certificates == old(certificates) - {certID}
        invariant rest <= domainToCert.Keys <= old(domainToCert).Keys
        invariant forall d :: d in old(domainToCert) ==> (d in domainToCert <==> d in rest || old(domainToCert)[d] != certID)
        invariant forall d :: d in domainToCert ==> domainToCert[d] == old(domainToCert)[d]
        decreases |rest|
      {
        var d :| d in rest;
        rest := rest - {d};
        if domainToCert[d] == certID {
          domainToCert := domainToCert - {d};
        }
      }
    }

    /** Registers a host: it is answered by a fitting certificate already, is mapped to one that lists it, or waits. */
    method RegisterDomain(domain: string, service: string, ready: bool, now: int) returns (ok: bool)
      requires ValidStore(AsStore())
      modifies this`domainToCert, this`registeredDomains, this`pendingDomains
      ensures ValidStore(AsStore())
      ensures ok <==> domain == "" || ready
      ensures registeredDomains == if domain != "" && ready then old(registeredDomains)[domain := service] else old(registeredDomains)
      ensures domain == "" || !ready ==> domainToCert == old(domainToCert) && pendingDomains == old(pendingDomains)
      ensures domain != "" && ready ==>
                RegisterOutcome(old(AsStore()), AsStore(), old(AsOwners()).(registered := registeredDomains), pendingDomains, domain, service, now)
    {
      if domain == "" {
        return true;
      }
      if !ready {
        return false;
      }
      registeredDomains := registeredDomains[domain := service];
      if Registered(AsStore(), AsOwners(), domain, service, now) {
        return true;
      }
      var listing := FindListing(AsStore(), AsOwners(), domain, service, now);
      if listing.Some? {
        MapListed(AsStore(), AsOwners(), domain, listing.value, service, now);
        domainToCert := domainToCert[domain := listing.value];
      } else {
        pendingDomains := pendingDomains[domain := service];
      }
      return true;
    }

    /** The host is no longer registered or waiting; everyone else is, and every certificate answers as it did. */
    method UnregisterDomain(domain: string)
      modifies this`pendingDomains, this`registeredDomains
      ensures domain !in registeredDomains && domain !in pendingDomains
      ensures forall d :: d != domain ==>
                && (d in registeredDomains <==> d in old(registeredDomains)) && (d in pendingDomains <==> d in old(pendingDomains))
                && (d in registeredDomains ==> registeredDomains[d] == old(registeredDomains)[d])
                && (d in pendingDomains ==> pendingDomains[d] == old(pendingDomains)[d])
      ensures forall d :: Served(AsStore(), d) <==> old(Served(AsStore(), d))
    {
      pendingDomains := pendingDomains - {domain};
      registeredDomains := registeredDomains - {domain};
    }

    /** Replaces one service's dynamic names; a name another service had moves to this one. */
    method SetDynamicDomains(service: string, domains: seq<string>)
      modifies this`dynamicDomains
      ensures forall d :: d in dynamicDomains <==> d in domains || (d in old(dynamicDomains) && old(dynamicDomains)[d] != service)
      ensures forall d :: d in dynamicDomains ==> dynamicDomains[d] == if d in domains then service else old(dynamicDomains)[d]
    {
      var kept := map d | d in dynamicDomains && dynamicDomains[d] != service :: dynamicDomains[d];
      dynamicDomains := kept;
      for i := 0 to |domains|
        invariant forall d :: d in dynamicDomains <==> d in domains[..i] || d in kept
        invariant forall d :: d in dynamicDomains ==> dynamicDomains[d] == if d in domains[..i] then service else kept[d]
      {
        assert domains[..i + 1] == domains[..i] + [domains[i]];
        dynamicDomains := dynamicDomains[domains[i] := service];
      }
      assert domains[..|domains|] == domains;
    }
  }

  /** Maps every name the predicate picks to one certificate, in whatever order the map is walked. */
  method Reassign(domainMap: map<string, string>, taken: string -> bool, id: string) returns (after: map<string, string>)
    ensures after.Keys == domainMap.Keys
    ensures forall d :: d in after ==> after[d] == if taken(d) then id else domainMap[d]
  {
    after := domainMap;
    var rest := domainMap.Keys;
    while rest != {}
      invariant rest <= domainMap.Keys && after.Keys == domainMap.Keys
      invariant forall d :: d in after ==> after[d] == if d !in rest && taken(d) then id else domainMap[d]
      decreases |rest|
    {
      var d :| d in rest;
      rest := rest - {d};
      if after[d] != id && taken(d) {
        after := after[d := id];
      }
    }
  }

  /** A stored certificate that lists a name and satisfies its service, in whatever order the map is walked. */
  method FindListing(s: Store, o: Owners, domain: string, service: string, now: int) returns (found: Option<string>)
    ensures found.Some? ==> found.value in s.certs && Lists(s, o, found.value, domain, service, now)
    ensures found.None? ==> forall id :: id in s.certs ==> !Lists(s, o, id, domain, service, now)
  {
    var rest := s.certs.Keys;
    while rest != {}
      invariant rest <= s.certs.Keys
      invariant forall id :: id in s.certs && id !in rest ==> !Lists(s, o, id, domain, service, now)
      decreases |rest|
    {
      var id :| id in rest;
      rest := rest - {id};
      if Lists(s, o, id, domain, service, now) {
        return Some(id);
      }
    }
    return None;
  }

  lemma TakenOverStep(o: Owners, managed: Cert, i: nat)
    requires i < |managed.domains|
    ensures forall d :: TakenOver(o, managed.(domains := managed.domains[..i + 1]), d) <==>
              TakenOver(o, managed.(domains := managed.domains[..i]), d)
              || TakenBy(o, managed, managed.domains[i], d)
  {
    var now, before := managed.domains[..i + 1], managed.domains[..i];
    forall d ensures CoveredByWildcard(now, d) <==> CoveredByWildcard(before, d) || MatchesWildcard(managed.domains[i], d) {
      if CoveredByWildcard(before, d) {
        var k :| 0 <= k < |before| && MatchesWildcard(before[k], d);
        assert now[k] == before[k];
      }
      if MatchesWildcard(managed.domains[i], d) {
        assert now[i] == managed.domains[i];
      }
      if CoveredByWildcard(now, d) {
        var k :| 0 <= k < |now| && MatchesWildcard(now[k], d);
        assert k < i ==> before[k] == now[k];
      }
    }
    forall d ensures OwnerAccepts(o, managed.(domains := now), d) == OwnerAccepts(o, managed.(domains := before), d) == OwnerAccepts(o, managed, d) { }
  }

  /** Mapping a name to a certificate that lists it keeps a valid store valid. */
  lemma MapValid(s: Store, domain: string, id: string)
    requires ValidStore(s) && id in s.certs && domain in s.certs[id].domains
    ensures ValidStore(s.(domainMap := s.domainMap[domain := id]))
  {
    var after := s.(domainMap := s.domainMap[domain := id]);
    forall d | d in after.domainMap ensures MappedToCover(after, d) {
      if d == domain {
        var i :| 0 <= i < |s.certs[id].domains| && s.certs[id].domains[i] == domain;
      } else {
        assert MappedToCover(s, d);
      }
    }
  }

  // ---- Every history ----

  datatype Action =
    | Adopted(cert: Cert, owners: Owners)
    | Removed(id: string)
    | Mapped(domain: string, to: string)

  ghost predicate Enabled(s: Store, a: Action) {
    a.Mapped? ==> a.to in s.certs && a.domain in s.certs[a.to].domains
  }

  function Step(s: Store, a: Action): Store {
    match a
    case Adopted(cert, owners) => Adopt(s, owners, cert)
    case Removed(id) => Remove(s, id)
    case Mapped(domain, to) => s.(domainMap := s.domainMap[domain := to])
  }

  ghost predicate IsRun(run: seq<Store>, actions: seq<Action>) {
    && |run| == |actions| + 1
    && forall i :: 0 <= i < |actions| ==> Enabled(run[i], actions[i]) && run[i + 1] == Step(run[i], actions[i])
  }

  /** Every adopted certificate carries the identifier of its own order. */
  ghost predicate IssuedIDs(digest: seq<string> -> string, actions: seq<Action>) {
    forall i :: 0 <= i < |actions| && actions[i].Adopted? ==>
      actions[i].cert.identifier == SanCertID(digest, actions[i].cert.domains)
  }

  /** No two orders share a digest, and no certificate present at the start shares a directory with one it is not. */
  ghost predicate NoClash(start: Store, actions: seq<Action>) {
    && (forall i, j :: 0 <= i < |actions| && 0 <= j < |actions| && actions[i].Adopted? && actions[j].Adopted? ==>
          actions[i].cert.identifier == actions[j].cert.identifier ==> actions[i].cert.domains == actions[j].cert.domains)
    && (forall id, i :: id in start.certs && 0 <= i < |actions| && actions[i].Adopted? ==>
          SanitizeFilename(id) == SanitizeFilename(actions[i].cert.identifier) ==>
            id == actions[i].cert.identifier && start.certs[id].domains == actions[i].cert.domains)
  }

  /** A stored certificate was there at the start or was adopted. */
  ghost predicate Known(start: Store, actions: seq<Action>, id: string, domains: seq<string>) {
    || (id in start.certs && start.certs[id].domains == domains)
    || (exists i :: 0 <= i < |actions| && actions[i].Adopted? && actions[i].cert.identifier == id && actions[i].cert.domains == domains)
  }

  lemma KnownIsAdoptable(digest: seq<string> -> string, start: Store, actions: seq<Action>, s: Store, k: nat)
    requires HexDigests(digest) && IssuedIDs(digest, actions) && NoClash(start, actions)
    requires k < |actions| && actions[k].Adopted? && ValidStore(s)
    requires forall id :: id in s.certs ==> Known(start, actions, id, s.certs[id].domains)
    ensures Adoptable(s, actions[k].cert)
  {
    var cert := actions[k].cert;
    SanDirectories(digest, cert.domains, cert.domains);
    forall id | id in s.certs && SanitizeFilename(id) == SanitizeFilename(cert.identifier)
      ensures id == cert.identifier && s.certs[id].domains == cert.domains
    {
      assert Known(start, actions, id, s.certs[id].domains);
      if !(id in start.certs && start.certs[id].domains == s.certs[id].domains) {
        var i :| 0 <= i < |actions| && actions[i].Adopted? && actions[i].cert.identifier == id && actions[i].cert.domains == s.certs[id].domains;
        SanDirectories(digest, cert.domains, actions[i].cert.domains);
      }
    }
    forall d | d in s.domainMap && s.domainMap[d] == cert.identifier ensures IdentifiersCover(cert.domains, d) {
      assert MappedToCover(s, d);
    }
  }

  lemma {:induction false} StaysKnown(digest: seq<string> -> string, run: seq<Store>, actions: seq<Action>, at: nat)
    requires HexDigests(digest) && IsRun(run, actions) && at < |run|
    requires ValidStore(run[0]) && IssuedIDs(digest, actions) && NoClash(run[0], actions)
    ensures ValidStore(run[at])
    ensures forall id :: id in run[at].certs ==> Known(run[0], actions, id, run[at].certs[id].domains)
  {
    if at > 0 {
      StaysKnown(digest, run, actions, at - 1);
      var s, a := run[at - 1], actions[at - 1];
      match a {
        case Adopted(cert, owners) =>
          KnownIsAdoptable(digest, run[0], actions, s, at - 1);
          AdoptValidIff(s, owners, cert);
          AdoptMaps(s, owners, cert);
          assert Known(run[0], actions, cert.identifier, cert.domains);
        case Removed(id) => RemoveValid(s, id);
        case Mapped(domain, to) => MapValid(s, domain, to);
      }
    }
  }

  /** Two different orders with one identifier, or a stored certificate in an order's directory that is not for its list. */
  ghost predicate Clash(start: Store, actions: seq<Action>) {
    || (exists i, j :: 0 <= i < |actions| && 0 <= j < |actions| && actions[i].Adopted? && actions[j].Adopted?
                       && actions[i].cert.identifier == actions[j].cert.identifier && actions[i].cert.domains != actions[j].cert.domains)
    || (exists id, i :: id in start.certs && 0 <= i < |actions| && actions[i].Adopted?
                        && SanitizeFilename(id) == SanitizeFilename(actions[i].cert.identifier)
                        && !(id == actions[i].cert.identifier && start.certs[id].domains == actions[i].cert.domains))
  }

  /**
   * From any valid store, every state reached by issuing, taking over, registering
   * and removing is one the export validator accepts -- or the history holds a
   * clash of digests or directories.
   */
  lemma RunStaysValid(digest: seq<string> -> string, run: seq<Store>, actions: seq<Action>, at: nat)
    requires HexDigests(digest) && IsRun(run, actions) && at < |run| && ValidStore(run[0]) && IssuedIDs(digest, actions)
    ensures ValidStore(run[at]) || Clash(run[0], actions)
  {
    if NoClash(run[0], actions) {
      StaysKnown(digest, run, actions, at);
    }
  }
}
