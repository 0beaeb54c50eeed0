/** The order split with the names and providers of a real configuration. */
module SolvableOrders {
  import opened Text
  import opened Names
  import opened Zones
  import opened OrderSplit

  function WildcardZone(domain: string): string {
    if IsWildcard(domain) then NormalizeDomainName(domain[2..]) else ""
  }

  function NamingOf(s: Solvers): Naming {
    Naming(
      (d: string) => IsWildcard(d),
      (d: string) => WildcardZone(d),
      (d: string) => ProviderKey(s.selection, d),
      (d: string) => HasSolver(s, d),
      (zone: string, d: string) => ZoneContains(zone, d)
    )
  }

  function HasZones(s: Solvers): bool {
    s.selection.zones != map[]
  }

  /** The orders a set of identifiers becomes under a configuration. */
  function Orders(s: Solvers, domains: seq<string>): seq<seq<string>> {
    Split(NamingOf(s), HasZones(s), domains)
  }

  ghost predicate Accepted(s: Solvers, domains: seq<string>) {
    SplitAccepted(NamingOf(s), HasZones(s), domains)
  }

  /** Two wildcards for one zone are also one zone to provider selection. */
  predicate ConsistentlySpelled(domains: seq<string>) {
    forall d, e :: d in domains && e in domains && IsWildcard(d) && IsWildcard(e) && WildcardZone(d) == WildcardZone(e) ==>
      NormalizeZone(d) == NormalizeZone(e)
  }

  lemma KeyOfZonePlain(zones: map<string, string>, zone: string)
    requires forall z :: z in zones ==> '|' !in zones[z]
    ensures '|' !in KeyOfZone(zones, zone)
    ensures KeyOfZone(zones, zone) == "" || KeyOfZone(zones, zone)[0] == 'z'
  {
    assert '|' !in "zone:";
  }

  lemma ConfiguredKeysPlain(s: Solvers)
    requires PlainProviders(s.selection)
    ensures PlainKeys(NamingOf(s))
  {
    forall d: string
      ensures var key := NamingOf(s).providerKey(d); '|' !in key && (key == "" || key[0] == 'z')
    {
      KeyOfZonePlain(s.selection.zones, ZoneOf(s.selection, d));
    }
  }

  /** Every order of every batch is accepted, and unsolvable wildcards are isolated. */
  lemma OrdersAccepted(s: Solvers, domains: seq<string>)
    requires PlainProviders(s.selection) && ConsistentlySpelled(domains)
    ensures Accepted(s, domains)
  {
    ConfiguredKeysPlain(s);
    SplitIsAccepted(NamingOf(s), HasZones(s), domains);
  }

  lemma RealZonesNest(s: Solvers)
    ensures ZonesNest(NamingOf(s))
  {
    var n := NamingOf(s);
    forall y: string, z: string, d: string | n.contains(y, d) && n.contains(z, d) && |y| == |z| ensures y == z {
      MatchTail(y, NormalizeDomainName(d));
      MatchTail(z, NormalizeDomainName(d));
    }
  }

  /** And no batch is split further than it must be: two identifiers share an order if and only if they have one home. */
  lemma OrderedTogetherIff(s: Solvers, domains: seq<string>, d: string, e: string)
    requires PlainProviders(s.selection) && ConsistentlySpelled(domains) && d in domains && e in domains
    ensures Together(Orders(s, domains), d, e) <==> SameHome(NamingOf(s), domains, d, e)
  {
    ConfiguredKeysPlain(s);
    RealZonesNest(s);
    TogetherIff(NamingOf(s), HasZones(s), domains, d, e);
  }

  /** Whatever the provider configuration: the split is accepted exactly when the batch is consistently spelled. */
  lemma OrdersAcceptedIff(domains: seq<string>)
    ensures (forall s: Solvers :: PlainProviders(s.selection) ==> Accepted(s, domains)) <==> ConsistentlySpelled(domains)
  {
    if ConsistentlySpelled(domains) {
      forall s: Solvers | PlainProviders(s.selection) ensures Accepted(s, domains) {
        OrdersAccepted(s, domains);
      }
    } else {
      var d, e :| d in domains && e in domains && IsWildcard(d) && IsWildcard(e)
                  && WildcardZone(d) == WildcardZone(e) && NormalizeZone(d) != NormalizeZone(e)
                  && |NormalizeZone(d)| >= |NormalizeZone(e)|;
      InconsistentRefused(domains, d, e, NormalizeZone(d), NormalizeZone(e));
    }
  }

  lemma InconsistentRefused(domains: seq<string>, d: string, e: string, longer: string, other: string)
    requires d in domains && e in domains && IsWildcard(d) && IsWildcard(e) && WildcardZone(d) == WildcardZone(e)
    requires longer == NormalizeZone(d) && other == NormalizeZone(e) && longer != other && |longer| >= |other|
    ensures exists s: Solvers :: PlainProviders(s.selection) && !Accepted(s, domains)
  {
    var s := Solvers(Selection("", map[longer := "p"]), false, {});
    KeysDiffer(s, d, e, longer, other);
    DifferentKeysRefused(s, domains, d, e);
    OnePlainProvider(longer);
  }

  lemma OnePlainProvider(zone: string)
    ensures PlainProviders(Selection("", map[zone := "p"]))
  {
  }

  lemma KeysDiffer(s: Solvers, d: string, e: string, longer: string, other: string)
    requires s.selection.zones == map[longer := "p"]
    requires longer == NormalizeZone(d) && other == NormalizeZone(e) && longer != other && |longer| >= |other|
    ensures NamingOf(s).providerKey(d) != NamingOf(s).providerKey(e)
  {
    MappedAlone(s.selection.zones, longer, other);
    ProviderKeyAt(s, d, longer);
    ProviderKeyAt(s, e, other);
  }

  lemma DifferentKeysRefused(s: Solvers, domains: seq<string>, d: string, e: string)
    requires d in domains && e in domains && IsWildcard(d) && IsWildcard(e) && WildcardZone(d) == WildcardZone(e)
    requires NamingOf(s).providerKey(d) != NamingOf(s).providerKey(e)
    ensures !Accepted(s, domains)
  {
    DisagreementRefused(NamingOf(s), HasZones(s), domains, d, e);
  }

  lemma ProviderKeyAt(s: Solvers, d: string, normal: string)
    requires normal == NormalizeZone(d)
    ensures NamingOf(s).providerKey(d) == KeyOfZone(s.selection.zones, LongestZone(s.selection.zones.Keys, normal))
  {
  }

  /** A zone mapped as the longer of two different spellings answers for that one only. */
  lemma MappedAlone(zones: map<string, string>, mapped: string, other: string)
    requires mapped != other && |mapped| >= |other| && zones == map[mapped := "p"]
    ensures KeyOfZone(zones, LongestZone(zones.Keys, mapped)) == "zone:p"
    ensures KeyOfZone(zones, LongestZone(zones.Keys, other)) == ""
  {
    LongestZoneIsLongest(zones.Keys, mapped);
    LongestZoneIsLongest(zones.Keys, other);
  }

  /** Wildcards of hostnames, with nothing to trim after "*.", are always consistent. */
  lemma HostnamesConsistent(domains: seq<string>)
    requires forall d :: d in domains && IsWildcard(d) ==> Unpadded(d[2..])
    ensures ConsistentlySpelled(domains)
  {
    forall d | d in domains && IsWildcard(d) ensures NormalizeZone(d) == WildcardZone(d) {
      OneNormalForm(d);
    }
  }

  lemma OneNormalForm(d: string)
    requires IsWildcard(d) && Unpadded(d[2..])
    ensures NormalizeZone(d) == WildcardZone(d)
  {
    assert d[0] == d[..2][0] == '*';
    assert d[|d| - 1] == d[2..][|d| - 3];
    UnpaddedZone(d);
    UnpaddedName(d[2..]);
    assert ToLower(d)[2..] == ToLower(d[2..]);
  }

  /**
   * The failing family of the split is inhabited: one zone spelled two ways. No
   * deploy, domain source or mapped zone yields the second spelling; an edited state
   * file can.
   */
  lemma SpacedWildcardIsInconsistent(plain: string, spaced: string)
    requires plain == "*.a.io" && spaced == "*. a.io"
    ensures !ConsistentlySpelled([plain, spaced])
  {
    var zone := Spelling(plain, spaced);
    SpacedZones(plain, spaced, zone);
    TwoSpellings(plain, spaced);
  }

  lemma Spelling(plain: string, spaced: string) returns (zone: string)
    requires plain == "*.a.io" && spaced == "*. a.io"
    ensures plain == "*." + zone && spaced == "*. " + zone && Unpadded(zone)
  {
    zone := "a.io";
  }

  lemma TwoSpellings(d: string, e: string)
    requires IsWildcard(d) && IsWildcard(e) && WildcardZone(d) == WildcardZone(e) && NormalizeZone(d) != NormalizeZone(e)
    ensures !ConsistentlySpelled([d, e])
  {
    var both := [d, e];
    assert both[0] in both && both[1] in both;
  }

  /** Space after "*." is trimmed from a wildcard's zone but kept in the zone its provider is looked up by. */
  lemma SpacedZones(plain: string, spaced: string, zone: string)
    requires plain == "*." + zone && spaced == "*. " + zone && Unpadded(zone)
    ensures IsWildcard(plain) && IsWildcard(spaced) && WildcardZone(plain) == WildcardZone(spaced)
    ensures NormalizeZone(plain) != NormalizeZone(spaced)
  {
    SpacedText(plain, spaced, zone);
    LeadingSpace(zone);
    ZoneLength(plain);
    ZoneLength(spaced);
  }

  lemma SpacedText(plain: string, spaced: string, zone: string)
    requires plain == "*." + zone && spaced == "*. " + zone && Unpadded(zone)
    ensures IsWildcard(plain) && IsWildcard(spaced) && Unpadded(plain) && Unpadded(spaced)
    ensures plain[2..] == zone && spaced[2..] == " " + zone
  {
    assert plain[..2] == "*." && spaced[..2] == "*.";
    assert plain[|plain| - 1] == zone[|zone| - 1] && spaced[|spaced| - 1] == zone[|zone| - 1];
  }

  lemma LeadingSpace(zone: string)
    ensures NormalizeDomainName(" " + zone) == NormalizeDomainName(zone)
  {
    assert (" " + zone)[1..] == zone;
    assert TrimLeft(" " + zone) == TrimLeft(zone);
  }

  lemma ZoneLength(wildcard: string)
    requires IsWildcard(wildcard) && |wildcard| > 2 && Unpadded(wildcard)
    ensures |NormalizeZone(wildcard)| == |wildcard| - 2
  {
    UnpaddedZone(wildcard);
  }
}
