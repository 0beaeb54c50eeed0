/**
 * Dividing identifiers into orders, each of which one solver can satisfy. The
 * division asks only five questions about a name; it is stated over them, and
 * SolvableOrders gives the real answers.
 */
module OrderSplit {
  import opened Text
  import opened Grouping

  /** What the split asks about identifiers. */
  datatype Naming = Naming(
    wild: string -> bool,
    zone: string -> string,
    providerKey: string -> string,
    solvable: string -> bool,
    contains: (string, string) -> bool
  )

  /** A wildcard's claim on a partition. An unsolvable wildcard attracts no members. */
  datatype Anchor = Anchor(zone: string, providerKey: string, key: string, solvable: bool)

  function SolvableKey(zone: string, providerKey: string): string {
    "wildcard:" + zone + "|" + providerKey
  }

  function UnsolvableKey(zone: string): string {
    "unsolvable-wildcard:" + zone
  }

  function AnchorFor(n: Naming, domain: string): Anchor {
    var zone, providerKey := n.zone(domain), n.providerKey(domain);
    if n.solvable(domain) then Anchor(zone, providerKey, SolvableKey(zone, providerKey), true)
    else Anchor(zone, providerKey, UnsolvableKey(zone), false)
  }

  // ---- Anchors, longest zone first ----

  predicate ZoneSeen(anchors: seq<Anchor>, zone: string) {
    exists a :: a in anchors && a.zone == zone
  }

  function CollectAnchors(n: Naming, domains: seq<string>): seq<Anchor> {
    if domains == [] then [] else
      var before := CollectAnchors(n, domains[..|domains| - 1]);
      var domain := domains[|domains| - 1];
      if !n.wild(domain) || ZoneSeen(before, n.zone(domain)) then before else before + [AnchorFor(n, domain)]
  }

  /** Stable insertion, longest zone first. */
  function Insert(anchors: seq<Anchor>, a: Anchor): (r: seq<Anchor>)
    ensures forall x :: x in r <==> x in anchors || x == a
  {
    if anchors == [] || |anchors[0].zone| < |a.zone| then [a] + anchors
    else [anchors[0]] + Insert(anchors[1..], a)
  }

  function SortAnchors(anchors: seq<Anchor>): (r: seq<Anchor>)
    ensures forall x :: x in r <==> x in anchors
  {
    if anchors == [] then [] else
      assert anchors == anchors[..|anchors| - 1] + [anchors[|anchors| - 1]];
      Insert(SortAnchors(anchors[..|anchors| - 1]), anchors[|anchors| - 1])
  }

  function Anchors(n: Naming, domains: seq<string>): seq<Anchor> {
    SortAnchors(CollectAnchors(n, domains))
  }

  ghost predicate LongestFirst(anchors: seq<Anchor>) {
    forall i, j :: 0 <= i < j < |anchors| ==> |anchors[i].zone| >= |anchors[j].zone|
  }

  /** Every anchor is made by a wildcard of the batch. */
  lemma {:induction false} AnchorSource(n: Naming, domains: seq<string>, a: Anchor) returns (d: string)
    requires a in CollectAnchors(n, domains)
    ensures d in domains && n.wild(d) && a == AnchorFor(n, d)
  {
    var front, last := domains[..|domains| - 1], domains[|domains| - 1];
    if a in CollectAnchors(n, front) {
      d := AnchorSource(n, front, a);
    } else {
      d := last;
    }
  }

  /** Every wildcard zone of the batch has an anchor. */
  lemma {:induction false} WildcardAnchored(n: Naming, domains: seq<string>, d: string) returns (a: Anchor)
    requires d in domains && n.wild(d)
    ensures a in CollectAnchors(n, domains) && a.zone == n.zone(d)
  {
    var front, last := domains[..|domains| - 1], domains[|domains| - 1];
    if d in front {
      a := WildcardAnchored(n, front, d);
    } else if ZoneSeen(CollectAnchors(n, front), n.zone(last)) {
      a :| a in CollectAnchors(n, front) && a.zone == n.zone(last);
    } else {
      a := AnchorFor(n, last);
    }
  }

  /** And only one. */
  lemma {:induction false} OneAnchorPerZone(n: Naming, domains: seq<string>, a: Anchor, b: Anchor)
    requires a in CollectAnchors(n, domains) && b in CollectAnchors(n, domains) && a.zone == b.zone
    ensures a == b
  {
    var before := CollectAnchors(n, domains[..|domains| - 1]);
    if a in before && b in before {
      OneAnchorPerZone(n, domains[..|domains| - 1], a, b);
    }
  }

  lemma {:induction false} InsertLongestFirst(anchors: seq<Anchor>, a: Anchor)
    requires LongestFirst(anchors)
    ensures LongestFirst(Insert(anchors, a))
  {
    if anchors != [] && |anchors[0].zone| >= |a.zone| {
      InsertLongestFirst(anchors[1..], a);
      var rest := Insert(anchors[1..], a);
      forall i | 0 <= i < |rest| ensures |anchors[0].zone| >= |rest[i].zone| {
        assert rest[i] in rest;
        assert rest[i] in anchors[1..] || rest[i] == a;
      }
    }
  }

  lemma {:induction false} SortAnchorsLongestFirst(anchors: seq<Anchor>)
    ensures LongestFirst(SortAnchors(anchors))
  {
    if anchors != [] {
      SortAnchorsLongestFirst(anchors[..|anchors| - 1]);
      InsertLongestFirst(SortAnchors(anchors[..|anchors| - 1]), anchors[|anchors| - 1]);
    }
  }

  /** The loop and stable sort that collect a batch's anchors. */
  method WildcardAnchors(n: Naming, domains: seq<string>) returns (anchors: seq<Anchor>)
    ensures anchors == Anchors(n, domains)
    ensures LongestFirst(anchors)
  {
    var collected: seq<Anchor> := [];
    var seen: set<string> := {};
    for i := 0 to |domains|
      invariant collected == CollectAnchors(n, domains[..i])
      invariant forall z :: z in seen <==> ZoneSeen(collected, z)
    {
      assert domains[..i + 1][..i] == domains[..i];
      var domain := domains[i];
      if n.wild(domain) && n.zone(domain) !in seen {
        seen := seen + {n.zone(domain)};
        ghost var before := collected;
        collected := collected + [AnchorFor(n, domain)];
        assert forall a :: a in collected <==> a in before || a == AnchorFor(n, domain);
      }
    }
    assert domains[..|domains|] == domains;

    anchors := [];
    for i := 0 to |collected|
      invariant anchors == SortAnchors(collected[..i])
    {
      assert collected[..i + 1][..i] == collected[..i];
      anchors := Insert(anchors, collected[i]);
    }
    assert collected[..|collected|] == collected;
    SortAnchorsLongestFirst(collected);
  }

  // ---- Keys ----

  function FindZone(anchors: seq<Anchor>, zone: string, from: nat): (found: Option<Anchor>)
    requires from <= |anchors|
    ensures found.Some? ==> found.value in anchors && found.value.zone == zone
    ensures found.None? ==> forall i :: from <= i < |anchors| ==> anchors[i].zone != zone
    decreases |anchors| - from
  {
    if from == |anchors| then None
    else if anchors[from].zone == zone then Some(anchors[from])
    else FindZone(anchors, zone, from + 1)
  }

  predicate Encloses(n: Naming, anchor: Anchor, domain: string) {
    anchor.solvable && anchor.providerKey == n.providerKey(domain) && n.contains(anchor.zone, domain)
  }

  function FindEnclosing(n: Naming, anchors: seq<Anchor>, domain: string, from: nat): (found: Option<Anchor>)
    requires from <= |anchors|
    ensures found.Some? ==> found.value in anchors && Encloses(n, found.value, domain)
    decreases |anchors| - from
  {
    if from == |anchors| then None
    else if Encloses(n, anchors[from], domain) then Some(anchors[from])
    else FindEnclosing(n, anchors, domain, from + 1)
  }

  /** The anchor an identifier joins: its own for a wildcard, else the first enclosing solvable one. */
  function AnchorJoined(n: Naming, anchors: seq<Anchor>, domain: string): (joined: Option<Anchor>)
    ensures joined.Some? ==> joined.value in anchors
  {
    var own := if n.wild(domain) then FindZone(anchors, n.zone(domain), 0) else None;
    if own.Some? then own else FindEnclosing(n, anchors, domain, 0)
  }

  function PartitionKey(n: Naming, anchors: seq<Anchor>, domain: string): string {
    match AnchorJoined(n, anchors, domain)
    case Some(anchor) => anchor.key
    case None => n.providerKey(domain)
  }

  /** Provider keys hold no bar and never look like an anchor's key. */
  ghost predicate PlainKeys(n: Naming) {
    forall d :: '|' !in n.providerKey(d) && (n.providerKey(d) == "" || n.providerKey(d)[0] == 'z')
  }

  lemma LastBar(zone: string, providerKey: string)
    requires '|' !in providerKey
    ensures var tail := zone + "|" + providerKey;
            tail[|zone|] == '|' && forall k :: |zone| < k < |tail| ==> tail[k] != '|'
  {
    var tail := zone + "|" + providerKey;
    assert forall k :: |zone| < k < |tail| ==> tail[k] == providerKey[k - |zone| - 1];
  }

  lemma SolvableKeyInjective(z1: string, p1: string, z2: string, p2: string)
    requires '|' !in p1 && '|' !in p2
    requires SolvableKey(z1, p1) == SolvableKey(z2, p2)
    ensures z1 == z2 && p1 == p2
  {
    var prefix := |"wildcard:"|;
    assert SolvableKey(z1, p1)[prefix..] == z1 + "|" + p1;
    assert SolvableKey(z2, p2)[prefix..] == z2 + "|" + p2;
    var tail := z1 + "|" + p1;
    LastBar(z1, p1);
    LastBar(z2, p2);
    assert |z1| == |z2|;
    assert z1 == tail[..|z1|] && z2 == (z2 + "|" + p2)[..|z2|];
    assert p1 == tail[|z1| + 1..] && p2 == (z2 + "|" + p2)[|z2| + 1..];
  }

  lemma AnchorKeyShape(n: Naming, d: string)
    requires PlainKeys(n)
    ensures var a := AnchorFor(n, d);
            && '|' !in a.providerKey && a.key != ""
            && (a.solvable ==> a.key == SolvableKey(a.zone, a.providerKey) && a.key[0] == 'w')
            && (!a.solvable ==> a.key == UnsolvableKey(a.zone) && a.key[0] == 'u')
  {
    assert '|' !in n.providerKey(d);
  }

  /** Within one batch an anchor's key names it. */
  lemma AnchorKeysDistinct(n: Naming, domains: seq<string>, a: Anchor, b: Anchor)
    requires PlainKeys(n) && a in Anchors(n, domains) && b in Anchors(n, domains) && a.key == b.key
    ensures a == b
  {
    var d := AnchorSource(n, domains, a);
    var e := AnchorSource(n, domains, b);
    AnchorKeyShape(n, d);
    AnchorKeyShape(n, e);
    if a.solvable {
      SolvableKeyInjective(a.zone, a.providerKey, b.zone, b.providerKey);
    } else {
      var prefix := |"unsolvable-wildcard:"|;
      assert a.zone == a.key[prefix..] && b.zone == b.key[prefix..];
    }
    OneAnchorPerZone(n, domains, a, b);
  }

  lemma AnchorKeyNotProvider(n: Naming, domains: seq<string>, a: Anchor, domain: string)
    requires PlainKeys(n) && a in Anchors(n, domains)
    ensures a.key != n.providerKey(domain)
  {
    var d := AnchorSource(n, domains, a);
    AnchorKeyShape(n, d);
    assert n.providerKey(domain) == "" || n.providerKey(domain)[0] == 'z';
  }

  // ---- The split ----

  function Split(n: Naming, hasZones: bool, domains: seq<string>): seq<seq<string>> {
    var anchors := Anchors(n, domains);
    if !hasZones && anchors == [] then [domains]
    else GroupBy(domains, (d: string) => PartitionKey(n, anchors, d))
  }

  method SplitByProviderZone(n: Naming, hasZones: bool, domains: seq<string>) returns (split: seq<seq<string>>)
    ensures split == Split(n, hasZones, domains)
  {
    var anchors := WildcardAnchors(n, domains);
    if !hasZones && anchors == [] {
      return [domains];
    }
    split := Group(domains, (d: string) => PartitionKey(n, anchors, d));
  }

  /** The partitions together are the input, each identifier as often as it was given. */
  lemma SplitPermutes(n: Naming, hasZones: bool, domains: seq<string>)
    ensures multiset(Flatten(Split(n, hasZones, domains))) == multiset(domains)
  {
    var anchors := Anchors(n, domains);
    if !hasZones && anchors == [] {
      assert Flatten([domains]) == [] + domains;
    } else {
      GroupByPermutes(domains, (d: string) => PartitionKey(n, anchors, d));
    }
  }

  predicate Outside(n: Naming, order: seq<string>, domain: string) {
    !n.wild(domain) && forall w :: w in order && n.wild(w) ==> !n.contains(n.zone(w), domain)
  }

  predicate ZoneCoherent(n: Naming, order: seq<string>) {
    forall d :: d in order ==> !Outside(n, order, d)
  }

  predicate OneProvider(n: Naming, order: seq<string>) {
    forall d, e :: d in order && e in order ==> n.providerKey(d) == n.providerKey(e)
  }

  predicate HoldsWildcard(n: Naming, order: seq<string>) {
    exists d :: d in order && n.wild(d)
  }

  /** What issuance checks before it spends an order: one provider, and no rider foreign to a wildcard's zone. */
  predicate OrderAccepted(n: Naming, order: seq<string>) {
    OneProvider(n, order) && (HoldsWildcard(n, order) ==> ZoneCoherent(n, order))
  }

  /** A wildcard no provider can solve sits only with other spellings of itself. */
  predicate UnsolvableIsolated(n: Naming, order: seq<string>) {
    forall w, d :: w in order && d in order && n.wild(w) && !n.solvable(w) ==> n.wild(d) && n.zone(d) == n.zone(w)
  }

  ghost predicate SplitAccepted(n: Naming, hasZones: bool, domains: seq<string>) {
    forall i :: 0 <= i < |Split(n, hasZones, domains)| ==>
      OrderAccepted(n, Split(n, hasZones, domains)[i]) && UnsolvableIsolated(n, Split(n, hasZones, domains)[i])
  }

  /** The first identifier outside every wildcard zone of an order, if there is one. */
  method OutsideWildcardZones(n: Naming, domains: seq<string>) returns (outsider: Option<string>)
    ensures outsider.None? <==> ZoneCoherent(n, domains)
    ensures outsider.Some? ==>
              exists k :: 0 <= k < |domains| && domains[k] == outsider.value && Outside(n, domains, domains[k])
                          && forall j :: 0 <= j < k ==> !Outside(n, domains, domains[j])
  {
    var zones: seq<string> := [];
    for i := 0 to |domains|
      invariant forall z :: z in zones <==> exists j :: 0 <= j < i && n.wild(domains[j]) && n.zone(domains[j]) == z
    {
      if n.wild(domains[i]) {
        zones := zones + [n.zone(domains[i])];
      }
    }

    for i := 0 to |domains|
      invariant forall j :: 0 <= j < i ==> !Outside(n, domains, domains[j])
    {
      if !n.wild(domains[i]) {
        var covered := exists z :: z in zones && n.contains(z, domains[i]);
        if covered {
          var z :| z in zones && n.contains(z, domains[i]);
          var j :| 0 <= j < |domains| && n.wild(domains[j]) && n.zone(domains[j]) == z;
          assert domains[j] in domains;
        } else {
          assert forall w :: w in domains && n.wild(w) ==> n.zone(w) in zones;
          assert Outside(n, domains, domains[i]);
          return Some(domains[i]);
        }
      }
    }
    return None;
  }

  /** One provider key for the whole order, or the refusal an order spanning providers meets. */
  method OrderProvider(n: Naming, domains: seq<string>) returns (key: Option<string>)
    ensures key.Some? <==> OneProvider(n, domains)
    ensures key.Some? ==> forall d :: d in domains ==> n.providerKey(d) == key.value
  {
    var first := "";
    for i := 0 to |domains|
      invariant i > 0 ==> first == n.providerKey(domains[0])
      invariant forall j :: 0 <= j < i ==> n.providerKey(domains[j]) == first
    {
      var domainKey := n.providerKey(domains[i]);
      if i == 0 {
        first := domainKey;
      } else if domainKey != first {
        assert domains[0] in domains && domains[i] in domains;
        return None;
      }
    }
    return Some(first);
  }

  /** Wildcards of one zone are one identifier to provider selection too. */
  ghost predicate ZonesAgree(n: Naming, domains: seq<string>) {
    forall d, e :: d in domains && e in domains && n.wild(d) && n.wild(e) && n.zone(d) == n.zone(e) ==>
      n.providerKey(d) == n.providerKey(e) && n.solvable(d) == n.solvable(e)
  }

  /** Two identifiers with one key joined one anchor, or none. */
  lemma SameKey(n: Naming, domains: seq<string>, d: string, e: string)
    requires PlainKeys(n)
    requires PartitionKey(n, Anchors(n, domains), d) == PartitionKey(n, Anchors(n, domains), e)
    ensures AnchorJoined(n, Anchors(n, domains), d) == AnchorJoined(n, Anchors(n, domains), e)
  {
    var anchors := Anchors(n, domains);
    var a, b := AnchorJoined(n, anchors, d), AnchorJoined(n, anchors, e);
    if a.Some? && b.Some? {
      AnchorKeysDistinct(n, domains, a.value, b.value);
    } else if a.Some? {
      AnchorKeyNotProvider(n, domains, a.value, e);
    } else if b.Some? {
      AnchorKeyNotProvider(n, domains, b.value, d);
    }
  }

  /** What joining an anchor says about an identifier. */
  lemma JoinedAnchor(n: Naming, domains: seq<string>, d: string)
    requires d in domains && ZonesAgree(n, domains)
    ensures var joined := AnchorJoined(n, Anchors(n, domains), d);
            && (joined.Some? ==> n.providerKey(d) == joined.value.providerKey)
            && (n.wild(d) ==> joined.Some? && joined.value.zone == n.zone(d) && joined.value.solvable == n.solvable(d))
            && (!n.wild(d) && joined.Some? ==> joined.value.solvable && n.contains(joined.value.zone, d))
  {
    var anchors := Anchors(n, domains);
    if n.wild(d) {
      var a := WildcardAnchored(n, domains, d);
      var own := FindZone(anchors, n.zone(d), 0);
      assert a in anchors && own.Some?;
      var e := AnchorSource(n, domains, own.value);
    }
  }

  /** Every partition is an order the issuance checks accept, and unsolvable wildcards are isolated. */
  lemma SplitIsAccepted(n: Naming, hasZones: bool, domains: seq<string>)
    requires PlainKeys(n) && ZonesAgree(n, domains)
    requires !hasZones ==> forall d :: n.providerKey(d) == ""
    ensures SplitAccepted(n, hasZones, domains)
  {
    var anchors := Anchors(n, domains);
    if !hasZones && anchors == [] {
      forall d | d in domains ensures !n.wild(d) {
        if n.wild(d) {
          var _ := WildcardAnchored(n, domains, d);
        }
      }
    } else {
      var keyOf := (d: string) => PartitionKey(n, anchors, d);
      forall i | 0 <= i < |Split(n, hasZones, domains)|
        ensures OrderAccepted(n, Split(n, hasZones, domains)[i]) && UnsolvableIsolated(n, Split(n, hasZones, domains)[i])
      {
        var part := Split(n, hasZones, domains)[i];
        forall d, e | d in part && e in part
          ensures n.providerKey(d) == n.providerKey(e)
          ensures n.wild(e) && !n.wild(d) ==> n.contains(n.zone(e), d)
          ensures n.wild(e) && !n.solvable(e) ==> n.wild(d) && n.zone(d) == n.zone(e)
        {
          InPart(domains, keyOf, i, d);
          InPart(domains, keyOf, i, e);
          SameKey(n, domains, d, e);
          JoinedAnchor(n, domains, d);
          JoinedAnchor(n, domains, e);
        }
      }
    }
  }

  /** Wildcards of one zone always share a partition, whoever answers for them. */
  lemma OneZoneOnePartition(n: Naming, hasZones: bool, domains: seq<string>, d: string, e: string) returns (i: nat)
    requires d in domains && e in domains && n.wild(d) && n.wild(e) && n.zone(d) == n.zone(e)
    ensures i < |Split(n, hasZones, domains)| && d in Split(n, hasZones, domains)[i] && e in Split(n, hasZones, domains)[i]
  {
    var anchors := Anchors(n, domains);
    var a := WildcardAnchored(n, domains, d);
    assert a in anchors;
    var keyOf := (x: string) => PartitionKey(n, anchors, x);
    i := PartOf(domains, keyOf, d);
    InPart(domains, keyOf, i, d);
    InPart(domains, keyOf, i, e);
  }

  /** So if two of them have different providers, some order spans providers. */
  lemma DisagreementRefused(n: Naming, hasZones: bool, domains: seq<string>, d: string, e: string)
    requires d in domains && e in domains && n.wild(d) && n.wild(e) && n.zone(d) == n.zone(e)
    requires n.providerKey(d) != n.providerKey(e)
    ensures !SplitAccepted(n, hasZones, domains)
  {
    var i := OneZoneOnePartition(n, hasZones, domains, d, e);
    assert !OneProvider(n, Split(n, hasZones, domains)[i]);
  }

  /** A concrete name joins the tightest wildcard zone of its own provider. */
  lemma {:induction false} JoinsTightest(n: Naming, anchors: seq<Anchor>, domain: string, from: nat, at: nat)
    requires LongestFirst(anchors) && from <= at < |anchors| && Encloses(n, anchors[at], domain)
    ensures FindEnclosing(n, anchors, domain, from).Some?
    ensures |FindEnclosing(n, anchors, domain, from).value.zone| >= |anchors[at].zone|
    decreases at - from
  {
    if !Encloses(n, anchors[from], domain) {
      JoinsTightest(n, anchors, domain, from + 1, at);
    }
  }

  // ---- Who is ordered together, in the names' own terms ----

  /** Zones of one length that contain a name are one zone. */
  ghost predicate ZonesNest(n: Naming) {
    forall y, z, d :: n.contains(y, d) && n.contains(z, d) && |y| == |z| ==> y == z
  }

  /** A wildcard of the batch that can be solved, by the provider that answers for the name, has this zone, and it contains the name. */
  ghost predicate Claims(n: Naming, domains: seq<string>, zone: string, d: string) {
    n.contains(zone, d) && exists w :: w in domains && n.wild(w) && n.zone(w) == zone && n.solvable(w) && n.providerKey(w) == n.providerKey(d)
  }

  /** A wildcard's home is its own zone; a concrete name's the tightest zone that claims it, if any does. */
  ghost predicate HomeZone(n: Naming, domains: seq<string>, d: string, zone: string) {
    if n.wild(d) then zone == n.zone(d)
    else Claims(n, domains, zone, d) && forall y :: Claims(n, domains, y, d) ==> |y| <= |zone|
  }

  /** One home zone, or none and one provider. */
  ghost predicate SameHome(n: Naming, domains: seq<string>, d: string, e: string) {
    || (exists zone :: HomeZone(n, domains, d, zone) && HomeZone(n, domains, e, zone))
    || (n.providerKey(d) == n.providerKey(e) && forall zone :: !HomeZone(n, domains, d, zone) && !HomeZone(n, domains, e, zone))
  }

  /** A zone that claims a name has an anchor that encloses it. */
  lemma ClaimingAnchor(n: Naming, domains: seq<string>, d: string, zone: string)
    requires ZonesAgree(n, domains) && Claims(n, domains, zone, d)
    ensures exists at :: 0 <= at < |Anchors(n, domains)| && Anchors(n, domains)[at].zone == zone && Encloses(n, Anchors(n, domains)[at], d)
  {
    var w :| w in domains && n.wild(w) && n.zone(w) == zone && n.solvable(w) && n.providerKey(w) == n.providerKey(d);
    var a := WildcardAnchored(n, domains, w);
    var v := AnchorSource(n, domains, a);
    assert a in Anchors(n, domains);
    var at :| 0 <= at < |Anchors(n, domains)| && Anchors(n, domains)[at] == a;
  }

  lemma EnclosingClaims(n: Naming, domains: seq<string>, d: string, a: Anchor)
    requires a in Anchors(n, domains) && Encloses(n, a, d)
    ensures Claims(n, domains, a.zone, d)
  {
    var w := AnchorSource(n, domains, a);
  }

  /** The anchor an identifier joins is its home zone's; it joins none when it has no home. */
  lemma JoinsHome(n: Naming, domains: seq<string>, d: string)
    requires d in domains && ZonesAgree(n, domains)
    ensures var joined := AnchorJoined(n, Anchors(n, domains), d);
            if joined.Some? then HomeZone(n, domains, d, joined.value.zone) else forall zone :: !HomeZone(n, domains, d, zone)
  {
    var anchors := Anchors(n, domains);
    var joined := AnchorJoined(n, anchors, d);
    JoinedAnchor(n, domains, d);
    if !n.wild(d) {
      SortAnchorsLongestFirst(CollectAnchors(n, domains));
      if joined.Some? {
        EnclosingClaims(n, domains, d, joined.value);
      }
      forall zone | Claims(n, domains, zone, d) ensures joined.Some? && |joined.value.zone| >= |zone| {
        ClaimingAnchor(n, domains, d, zone);
        var at :| 0 <= at < |anchors| && anchors[at].zone == zone && Encloses(n, anchors[at], d);
        JoinsTightest(n, anchors, d, 0, at);
      }
    }
  }

  /** A name has one home at most. */
  lemma OneHome(n: Naming, domains: seq<string>, d: string, y: string, z: string)
    requires ZonesNest(n) && HomeZone(n, domains, d, y) && HomeZone(n, domains, d, z)
    ensures y == z
  {
  }

  lemma SameHomeIff(n: Naming, domains: seq<string>, d: string, e: string)
    requires d in domains && e in domains && PlainKeys(n) && ZonesAgree(n, domains) && ZonesNest(n)
    ensures PartitionKey(n, Anchors(n, domains), d) == PartitionKey(n, Anchors(n, domains), e) <==> SameHome(n, domains, d, e)
  {
    var anchors := Anchors(n, domains);
    var a, b := AnchorJoined(n, anchors, d), AnchorJoined(n, anchors, e);
    JoinsHome(n, domains, d);
    JoinsHome(n, domains, e);
    if PartitionKey(n, anchors, d) == PartitionKey(n, anchors, e) {
      SameKey(n, domains, d, e);
    }
    if zone :| HomeZone(n, domains, d, zone) && HomeZone(n, domains, e, zone) {
      OneHome(n, domains, d, zone, a.value.zone);
      OneHome(n, domains, e, zone, b.value.zone);
      OneAnchorPerZone(n, domains, a.value, b.value);
    }
  }

  ghost predicate Together(parts: seq<seq<string>>, d: string, e: string) {
    exists i :: 0 <= i < |parts| && d in parts[i] && e in parts[i]
  }

  lemma TogetherByKey(domains: seq<string>, keyOf: string -> string, d: string, e: string)
    requires d in domains && e in domains
    ensures Together(GroupBy(domains, keyOf), d, e) <==> keyOf(d) == keyOf(e)
  {
    var i := PartOf(domains, keyOf, d);
    InPart(domains, keyOf, i, d);
    InPart(domains, keyOf, i, e);
    if Together(GroupBy(domains, keyOf), d, e) {
      var j :| 0 <= j < |GroupBy(domains, keyOf)| && d in GroupBy(domains, keyOf)[j] && e in GroupBy(domains, keyOf)[j];
    }
  }

  /**
   * The split goes no further than it must, and no less: two identifiers are
   * ordered together if and only if they have one home zone, or no home and one
   * provider.
   */
  lemma TogetherIff(n: Naming, hasZones: bool, domains: seq<string>, d: string, e: string)
    requires d in domains && e in domains && PlainKeys(n) && ZonesAgree(n, domains) && ZonesNest(n)
    requires !hasZones ==> forall x :: n.providerKey(x) == ""
    ensures Together(Split(n, hasZones, domains), d, e) <==> SameHome(n, domains, d, e)
  {
    var anchors := Anchors(n, domains);
    SameHomeIff(n, domains, d, e);
    if !hasZones && anchors == [] {
      assert Split(n, hasZones, domains)[0] == domains;
    } else {
      TogetherByKey(domains, (x: string) => PartitionKey(n, anchors, x), d, e);
    }
  }
}
