/**
 * The certificate manager's maps: which certificates are stored, which one
 * answers for each name, and the state every operation must keep for an export
 * of them to be accepted again.
 */
module Manager {
  import opened Text
  import opened Names

  datatype Cert = Cert(identifier: string, domains: seq<string>, notAfter: int, directory: string)

  /** Who owns which name, and which ACME directory each service wants. */
  datatype Owners = Owners(registered: map<string, string>, dynamic: map<string, string>,
                           pending: map<string, string>, directories: map<string, string>, runDirectory: string)

  datatype Store = Store(certs: map<string, Cert>, domainMap: map<string, string>)

  const DAY := 24 * 60 * 60

  // ---- Identifiers and directories on disk ----

  predicate FileChar(c: char) {
    'a' <= c <= 'z' || 'A' <= c <= 'Z' || '0' <= c <= '9' || c == '-' || c == '_' || c == '.'
  }

  function SanitizeFilename(s: string): (r: string)
    ensures |r| == |s| && forall i :: 0 <= i < |s| ==> r[i] == if FileChar(s[i]) then s[i] else '_'
  {
    seq(|s|, i requires 0 <= i < |s| => if FileChar(s[i]) then s[i] else '_')
  }

  predicate SafeDirectory(dir: string) {
    dir != "" && dir != "." && dir != ".."
  }

  ghost predicate ValidStore(s: Store) {
    && (forall id :: id in s.certs ==> s.certs[id].identifier == id && SafeDirectory(SanitizeFilename(id)))
    && (forall a, b :: a in s.certs && b in s.certs && SanitizeFilename(a) == SanitizeFilename(b) ==> a == b)
    && (forall d :: d in s.domainMap ==> MappedToCover(s, d))
  }

  predicate MappedToCover(s: Store, d: string)
    requires d in s.domainMap
  {
    s.domainMap[d] in s.certs && IdentifiersCover(s.certs[s.domainMap[d]].domains, d)
  }

  // ---- The export validator ----

  /** A state file: either map may be missing, and a certificate record may be null. */
  datatype StateFile = StateFile(certificates: Option<map<string, Option<Cert>>>, domainMap: Option<map<string, string>>)

  /** The state file is complete and what it holds is a valid store. */
  ghost predicate AcceptableFile(f: StateFile) {
    && f.certificates.Some? && f.domainMap.Some?
    && (forall id :: id in f.certificates.value ==> f.certificates.value[id].Some?)
    && ValidStore(Store(Present(f.certificates.value), f.domainMap.value))
  }

  /** The records that are not null. */
  function Present(records: map<string, Option<Cert>>): map<string, Cert> {
    map id | id in records && records[id].Some? :: records[id].value
  }

  /** The records pass alone: present, named by their key, safe and unique on disk. */
  ghost predicate RecordsPass(records: map<string, Option<Cert>>, ids: set<string>) {
    && (forall id :: id in ids ==> id in records && records[id].Some? && records[id].value.identifier == id
                                    && SafeDirectory(SanitizeFilename(id)))
    && (forall a, b :: a in ids && b in ids && SanitizeFilename(a) == SanitizeFilename(b) ==> a == b)
  }

  method ValidateRecords(records: map<string, Option<Cert>>) returns (ok: bool)
    ensures ok <==> RecordsPass(records, records.Keys)
  {
    var rest := records.Keys;
    var dirs: map<string, string> := map[];
    while rest != {}
      invariant rest <= records.Keys && RecordsPass(records, records.Keys - rest)
      invariant forall dir :: dir in dirs <==> exists id :: id in records.Keys - rest && SanitizeFilename(id) == dir
      decreases |rest|
    {
      var id :| id in rest;
      if records[id].None? || records[id].value.identifier != id {
        return false;
      }
      var dir := SanitizeFilename(id);
      if !SafeDirectory(dir) {
        return false;
      }
      if dir in dirs {
        var other :| other in records.Keys - rest && SanitizeFilename(other) == dir;
        assert other != id;
        return false;
      }
      ghost var before := dirs;
      dirs := dirs[dir := id];
      assert records.Keys - (rest - {id}) == (records.Keys - rest) + {id};
      forall x ensures x in dirs <==> exists y :: y in records.Keys - (rest - {id}) && SanitizeFilename(y) == x {
        if x in before {
          var y :| y in records.Keys - rest && SanitizeFilename(y) == x;
          assert y in records.Keys - (rest - {id});
        }
        if x == dir { assert id in records.Keys - (rest - {id}); }
      }
      rest := rest - {id};
    }
    assert records.Keys - rest == records.Keys;
    return true;
  }

  method ValidateMappings(s: Store) returns (ok: bool)
    ensures ok <==> forall d :: d in s.domainMap ==> MappedToCover(s, d)
  {
    var rest := s.domainMap.Keys;
    while rest != {}
      invariant rest <= s.domainMap.Keys
      invariant forall d :: d in s.domainMap && d !in rest ==> MappedToCover(s, d)
      decreases |rest|
    {
      var d :| d in rest;
      if !MappedToCover(s, d) {
        return false;
      }
      rest := rest - {d};
    }
    return true;
  }

  /** Accepts a state file exactly when it is complete and its store is valid. */
  method ValidateManagerState(f: StateFile) returns (ok: bool)
    ensures ok <==> AcceptableFile(f)
  {
    if f.certificates.None? || f.domainMap.None? {
      return false;
    }
    var records := f.certificates.value;
    ok := ValidateRecords(records);
    AcceptableIff(f);
    if ok {
      ok := ValidateMappings(Store(Present(records), f.domainMap.value));
    }
  }

  /** The two passes together are the whole check. */
  lemma AcceptableIff(f: StateFile)
    requires f.certificates.Some? && f.domainMap.Some?
    ensures var records := f.certificates.value;
            var s := Store(Present(records), f.domainMap.value);
            AcceptableFile(f) <==> RecordsPass(records, records.Keys) && forall d :: d in s.domainMap ==> MappedToCover(s, d)
  {
    var records := f.certificates.value;
    var certs := Present(records);
    if RecordsPass(records, records.Keys) {
      assert forall id :: id in certs <==> id in records;
      assert ValidStore(Store(certs, f.domainMap.value)) <==> forall d :: d in f.domainMap.value ==> MappedToCover(Store(certs, f.domainMap.value), d);
    } else if AcceptableFile(f) {
      assert forall id :: id in records ==> id in certs && certs[id] == records[id].value;
      assert RecordsPass(records, records.Keys);
    }
  }

  // ---- Adoption, takeover, removal ----

  function DirectoryFor(o: Owners, service: string): string {
    if service in o.directories then o.directories[service] else o.runDirectory
  }

  function NormalizeDirectory(o: Owners, directory: string): string {
    if directory == "" then o.runDirectory else directory
  }

  /** The owner adoption consults: registered first, whatever it says, then dynamic. */
  function TakeoverOwner(o: Owners, d: string): string {
    if d in o.registered then o.registered[d] else if d in o.dynamic then o.dynamic[d] else ""
  }

  predicate OwnerAccepts(o: Owners, cert: Cert, d: string) {
    var owner := TakeoverOwner(o, d);
    owner != "" && NormalizeDirectory(o, cert.directory) == DirectoryFor(o, owner)
  }

  predicate CoveredByWildcard(domains: seq<string>, d: string) {
    exists i :: 0 <= i < |domains| && MatchesWildcard(domains[i], d)
  }

  /** A concrete name a freshly adopted certificate's wildcard takes over. */
  predicate TakenOver(o: Owners, cert: Cert, d: string) {
    !IsWildcard(d) && CoveredByWildcard(cert.domains, d) && OwnerAccepts(o, cert, d)
  }

  function Claimed(s: Store, cert: Cert): Store {
    Store(s.certs[cert.identifier := cert],
          map d | d in s.domainMap.Keys + (set x | x in cert.domains) :: if d in cert.domains then cert.identifier else s.domainMap[d])
  }

  function Takeover(s: Store, o: Owners, cert: Cert): Store {
    s.(domainMap := map d | d in s.domainMap :: if TakenOver(o, cert, d) then cert.identifier else s.domainMap[d])
  }

  function Adopt(s: Store, o: Owners, cert: Cert): Store {
    Takeover(Claimed(s, cert), o, cert)
  }

  function Remove(s: Store, id: string): Store {
    Store(s.certs - {id}, map d | d in s.domainMap && s.domainMap[d] != id :: s.domainMap[d])
  }

  /** Nothing else on disk uses the new certificate's directory, and whoever still maps to its identifier is covered by it. */
  predicate Adoptable(s: Store, cert: Cert) {
    && SafeDirectory(SanitizeFilename(cert.identifier))
    && (forall id :: id in s.certs && SanitizeFilename(id) == SanitizeFilename(cert.identifier) ==> id == cert.identifier)
    && (forall d :: d in s.domainMap && s.domainMap[d] == cert.identifier ==> IdentifiersCover(cert.domains, d))
  }

  // ---- Whose names a certificate takes over, on the owners' own maps ----

  /** The service a name belongs to: the one that registered it, else the one whose source lists it. */
  ghost predicate BelongsTo(o: Owners, d: string, service: string) {
    || (d in o.registered && service == o.registered[d])
    || (d !in o.registered && d in o.dynamic && service == o.dynamic[d])
  }

  /** The certificate was issued where the service wants its certificates from; an unnamed directory is the one the proxy runs with. */
  ghost predicate IssuedFor(o: Owners, cert: Cert, service: string) {
    && (service in o.directories && cert.directory != "" ==> cert.directory == o.directories[service])
    && (service in o.directories && cert.directory == "" ==> o.directories[service] == o.runDirectory)
    && (service !in o.directories && cert.directory != "" ==> cert.directory == o.runDirectory)
  }

  /** A concrete name one label below a wildcard of the certificate, whose service wants certificates from where it was issued. */
  ghost predicate Takes(o: Owners, cert: Cert, d: string) {
    && !(|d| >= 2 && d[0] == '*' && d[1] == '.')
    && (exists w :: w in cert.domains && MatchesWildcard(w, d))
    && (exists service :: service != "" && BelongsTo(o, d, service) && IssuedFor(o, cert, service))
  }

  lemma IssuedForIff(o: Owners, cert: Cert, service: string)
    ensures IssuedFor(o, cert, service) <==> NormalizeDirectory(o, cert.directory) == DirectoryFor(o, service)
  {
  }

  lemma TakesIff(o: Owners, cert: Cert, d: string)
    ensures TakenOver(o, cert, d) <==> Takes(o, cert, d)
  {
    var owner := TakeoverOwner(o, d);
    IssuedForIff(o, cert, owner);
    assert IsWildcard(d) <==> |d| >= 2 && d[0] == '*' && d[1] == '.' by {
      if |d| >= 2 { assert d[..2] == [d[0], d[1]]; }
    }
    if TakenOver(o, cert, d) {
      var i :| 0 <= i < |cert.domains| && MatchesWildcard(cert.domains[i], d);
      assert cert.domains[i] in cert.domains;
      assert BelongsTo(o, d, owner);
    }
    if Takes(o, cert, d) {
      var w :| w in cert.domains && MatchesWildcard(w, d);
      var i :| 0 <= i < |cert.domains| && cert.domains[i] == w;
      var service :| service != "" && BelongsTo(o, d, service) && IssuedFor(o, cert, service);
      assert service == owner;
    }
  }

  /** What each name maps to after an adoption, in those terms. */
  lemma AdoptTakes(s: Store, o: Owners, cert: Cert)
    ensures var after := Adopt(s, o, cert);
            && after.certs == s.certs[cert.identifier := cert]
            && (forall d :: d in after.domainMap <==> d in s.domainMap || d in cert.domains)
            && (forall d :: d in after.domainMap ==>
                  after.domainMap[d] == if d in cert.domains || Takes(o, cert, d) then cert.identifier else s.domainMap[d])
  {
    AdoptMaps(s, o, cert);
    forall d ensures TakenOver(o, cert, d) <==> Takes(o, cert, d) {
      TakesIff(o, cert, d);
    }
  }

  /** What each name maps to after an adoption. */
  lemma AdoptMaps(s: Store, o: Owners, cert: Cert)
    ensures var after := Adopt(s, o, cert);
            && after.certs == s.certs[cert.identifier := cert]
            && (forall d :: d in after.domainMap <==> d in s.domainMap || d in cert.domains)
            && (forall d :: d in cert.domains ==> after.domainMap[d] == cert.identifier)
            && (forall d :: d in s.domainMap && d !in cert.domains ==>
                  after.domainMap[d] == if TakenOver(o, cert, d) then cert.identifier else s.domainMap[d])
  {
  }

  /** Adoption keeps a valid store valid exactly when the certificate was adoptable. */
  lemma AdoptValidIff(s: Store, o: Owners, cert: Cert)
    requires ValidStore(s)
    ensures ValidStore(Adopt(s, o, cert)) <==> Adoptable(s, cert)
  {
    AdoptMaps(s, o, cert);
    var after := Adopt(s, o, cert);
    if Adoptable(s, cert) {
      forall d | d in after.domainMap ensures MappedToCover(after, d) {
        AdoptedCovers(s, o, cert, d);
      }
    } else if ValidStore(after) {
      assert cert.identifier in after.certs;
      forall id | id in s.certs && SanitizeFilename(id) == SanitizeFilename(cert.identifier) ensures id == cert.identifier {
        assert id in after.certs;
      }
      forall d | d in s.domainMap && s.domainMap[d] == cert.identifier ensures IdentifiersCover(cert.domains, d) {
        assert MappedToCover(after, d);
      }
      assert Adoptable(s, cert);
    }
  }

  lemma AdoptedCovers(s: Store, o: Owners, cert: Cert, d: string)
    requires ValidStore(s) && Adoptable(s, cert) && d in Adopt(s, o, cert).domainMap
    ensures MappedToCover(Adopt(s, o, cert), d)
  {
    AdoptMaps(s, o, cert);
    if d in cert.domains {
      var i :| 0 <= i < |cert.domains| && cert.domains[i] == d;
    } else if TakenOver(o, cert, d) {
      var i :| 0 <= i < |cert.domains| && MatchesWildcard(cert.domains[i], d);
    } else {
      assert MappedToCover(s, d);
    }
  }

  /** Removal takes the certificate and the names that map to it, nothing else, and keeps a valid store valid. */
  lemma RemoveValid(s: Store, id: string)
    requires ValidStore(s)
    ensures ValidStore(Remove(s, id))
    ensures forall c :: c in Remove(s, id).certs <==> c in s.certs && c != id
    ensures forall c :: c in Remove(s, id).certs ==> Remove(s, id).certs[c] == s.certs[c]
    ensures forall d :: d in Remove(s, id).domainMap <==> d in s.domainMap && s.domainMap[d] != id
    ensures forall d :: d in Remove(s, id).domainMap ==> Remove(s, id).domainMap[d] == s.domainMap[d]
  {
    var after := Remove(s, id);
    forall d | d in after.domainMap ensures MappedToCover(after, d) {
      assert MappedToCover(s, d);
    }
  }

  // ---- Which certificate answers for a name ----

  function CertIDCovering(s: Store, d: string): string {
    if d in s.domainMap then s.domainMap[d]
    else if WildcardParent(d).Some? && WildcardParent(d).value in s.domainMap then s.domainMap[WildcardParent(d).value]
    else ""
  }

  /** The name, or the wildcard one label above it, is mapped. */
  predicate Answered(s: Store, d: string) {
    d in s.domainMap || (WildcardParent(d).Some? && WildcardParent(d).value in s.domainMap)
  }

  /** The certificate found for a name is stored and covers it. */
  predicate Served(s: Store, d: string) {
    CertIDCovering(s, d) in s.certs && IdentifiersCover(s.certs[CertIDCovering(s, d)].domains, d)
  }

  /** A wildcard is covered only by itself. */
  lemma WildcardCoveredByItself(identifiers: seq<string>, parent: string, d: string)
    requires WildcardParent(d) == Some(parent) && IdentifiersCover(identifiers, parent)
    ensures IdentifiersCover(identifiers, d)
  {
    var i :| 0 <= i < |identifiers| && (identifiers[i] == parent || MatchesWildcard(identifiers[i], parent));
    ParentOfParent(d);
    assert parent[..2] == "*.";
    assert identifiers[i] == parent;
    assert MatchesWildcard(identifiers[i], d);
  }

  /** The wildcard above a wildcard is itself. */
  lemma ParentOfParent(d: string)
    requires WildcardParent(d).Some?
    ensures WildcardParent(WildcardParent(d).value) == WildcardParent(d)
  {
    var parent := WildcardParent(d).value;
    var tail := d[IndexOf(d, '.') + 1..];
    assert parent == "*." + tail && tail != "";
    assert parent[1] == '.' && parent[..1] == "*";
    IndexOfIs(parent, '.', 1);
    assert parent[2..] == tail;
  }

  /** In a valid store whatever is answered is answered by a certificate that covers it. */
  lemma AnsweredIsServed(s: Store, d: string)
    requires ValidStore(s) && Answered(s, d)
    ensures Served(s, d)
  {
    if d in s.domainMap {
      assert MappedToCover(s, d);
    } else {
      var parent := WildcardParent(d).value;
      assert MappedToCover(s, parent);
      WildcardCoveredByItself(s.certs[s.domainMap[parent]].domains, parent, d);
    }
  }

  // ---- Certificate identifiers of issued orders ----

  /** "san:" and sixteen hex digits of a digest of the ordered names. */
  function SanCertID(digest: seq<string> -> string, domains: seq<string>): string {
    "san:" + digest(domains)
  }

  ghost predicate HexDigests(digest: seq<string> -> string) {
    forall domains :: |digest(domains)| == 16 && forall i :: 0 <= i < 16 ==> FileChar(digest(domains)[i])
  }

  /** Issued identifiers are safe on disk and share a directory only when they are equal. */
  lemma SanDirectories(digest: seq<string> -> string, a: seq<string>, b: seq<string>)
    requires HexDigests(digest)
    ensures SafeDirectory(SanitizeFilename(SanCertID(digest, a)))
    ensures SanitizeFilename(SanCertID(digest, a)) == SanitizeFilename(SanCertID(digest, b)) <==> SanCertID(digest, a) == SanCertID(digest, b)
  {
    var x, y := SanCertID(digest, a), SanCertID(digest, b);
    SanitizedTail(digest, a);
    SanitizedTail(digest, b);
    if SanitizeFilename(x) == SanitizeFilename(y) {
      assert digest(a) == SanitizeFilename(x)[4..];
      assert digest(b) == SanitizeFilename(y)[4..];
    }
  }

  lemma SanitizedTail(digest: seq<string> -> string, a: seq<string>)
    requires HexDigests(digest)
    ensures |SanitizeFilename(SanCertID(digest, a))| == 20 && SanitizeFilename(SanCertID(digest, a))[4..] == digest(a)
  {
    var id := SanCertID(digest, a);
    var dir := SanitizeFilename(id);
    assert |digest(a)| == 16;
    assert |dir| == 20;
    forall i | 0 <= i < 16 ensures dir[4..][i] == digest(a)[i] {
      assert dir[4 + i] == id[4 + i] == digest(a)[i];
    }
  }

  /**
   * The failing family is inhabited, whatever the digest: a state file restored or
   * edited to hold a record named "san_" and an order's digits is valid, and issuing
   * for that order puts two certificates in one directory.
   */
  lemma RestoredIdentifierCollides(digest: seq<string> -> string, domains: seq<string>, record: Cert, notAfter: int, directory: string)
    requires HexDigests(digest) && record.identifier == "san_" + digest(domains)
    ensures var s := Store(map[record.identifier := record], map[]);
            ValidStore(s) && !Adoptable(s, Cert(SanCertID(digest, domains), domains, notAfter, directory))
  {
    var id := SanCertID(digest, domains);
    var s := Store(map[record.identifier := record], map[]);
    SameDirectory(digest, domains);
    SanDirectories(digest, domains, domains);
    assert record.identifier[3] == '_' && id[3] == ':';
    assert record.identifier in s.certs;
  }

  lemma SameDirectory(digest: seq<string> -> string, domains: seq<string>)
    requires HexDigests(digest)
    ensures SanitizeFilename("san_" + digest(domains)) == SanitizeFilename(SanCertID(digest, domains))
  {
    var a, b := "san_" + digest(domains), SanCertID(digest, domains);
    assert |a| == |b|;
    forall i | 0 <= i < |a| ensures SanitizeFilename(a)[i] == SanitizeFilename(b)[i] {
      if i >= 4 {
        assert a[i] == digest(domains)[i - 4] == b[i];
      }
    }
  }
}
