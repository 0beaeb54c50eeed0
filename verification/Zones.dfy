/**
 * DNS-01 providers mapped to zones: which provider, and which solver, answers
 * for a domain.
 */
module Zones {
  import opened Text
  import opened Names

  /** Explicit zone-to-provider mappings, plus the provider for everything else. */
  datatype Selection = Selection(fallback: string, zones: map<string, string>)

  /** One ACME identity's DNS-01 clients: which mapped providers have one, and whether the default does. */
  datatype Solvers = Solvers(selection: Selection, hasDefault: bool, armed: set<string>)

  predicate ZoneMatches(zone: string, candidate: string) {
    candidate == zone || HasSuffix(candidate, "." + zone)
  }

  /** The longest configured zone enclosing a candidate, found by dropping leading labels. */
  function LongestZone(zones: set<string>, candidate: string): string
    decreases |candidate|
  {
    if candidate in zones then candidate else
      var dot := IndexOf(candidate, '.');
      if dot == |candidate| then "" else LongestZone(zones, candidate[dot + 1..])
  }

  lemma {:induction false} LongestZoneIsLongest(zones: set<string>, candidate: string)
    ensures var z := LongestZone(zones, candidate);
            && (z != "" ==> z in zones && ZoneMatches(z, candidate))
            && (forall y :: y in zones && ZoneMatches(y, candidate) ==> |y| <= |z|)
    decreases |candidate|
  {
    var dot := IndexOf(candidate, '.');
    if candidate !in zones {
      forall y | y in zones && ZoneMatches(y, candidate)
        ensures dot < |candidate| && ZoneMatches(y, candidate[dot + 1..])
      {
        MatchBelowFirstDot(y, candidate);
      }
      if dot < |candidate| {
        var rest := candidate[dot + 1..];
        LongestZoneIsLongest(zones, rest);
        var z := LongestZone(zones, rest);
        if z != "" {
          MatchAbove(z, candidate, dot);
        }
      }
    }
  }

  lemma MatchAbove(zone: string, candidate: string, dot: nat)
    requires dot < |candidate| && candidate[dot] == '.' && ZoneMatches(zone, candidate[dot + 1..])
    ensures ZoneMatches(zone, candidate)
  {
    var rest := candidate[dot + 1..];
    if rest == zone {
      assert candidate[dot..] == "." + zone;
    } else {
      assert candidate[|candidate| - |zone| - 1..] == rest[|rest| - |zone| - 1..];
    }
  }

  /** What ends in a dot and a zone, read at that dot. */
  lemma SuffixAtDot(zone: string, candidate: string)
    requires HasSuffix(candidate, "." + zone)
    ensures var at := |candidate| - |zone| - 1;
            at >= 0 && candidate[at] == '.' && candidate[at + 1..] == zone
  {
    var at := |candidate| - |zone| - 1;
    var end := candidate[at..];
    assert end == "." + zone;
    assert end[0] == '.' && end[1..] == zone && candidate[at + 1..] == end[1..];
  }

  lemma MatchBelow(zone: string, candidate: string, dot: nat)
    requires HasSuffix(candidate, "." + zone) && dot <= |candidate| - |zone| - 1
    ensures ZoneMatches(zone, candidate[dot + 1..])
  {
    SuffixAtDot(zone, candidate);
    var rest := candidate[dot + 1..];
    if dot < |candidate| - |zone| - 1 {
      assert rest[|rest| - |zone| - 1..] == candidate[|candidate| - |zone| - 1..];
    }
  }

  lemma MatchBelowFirstDot(zone: string, candidate: string)
    requires candidate != zone && HasSuffix(candidate, "." + zone)
    ensures var dot := IndexOf(candidate, '.');
            dot < |candidate| && ZoneMatches(zone, candidate[dot + 1..])
  {
    SuffixAtDot(zone, candidate);
    IndexOfAtMost(candidate, '.', |candidate| - |zone| - 1);
    MatchBelow(zone, candidate, IndexOf(candidate, '.'));
  }

  /** The longest matching zone wins, whatever order the map is walked in. */
  method LongestMatch(zones: map<string, string>, candidate: string) returns (zone: string)
    ensures zone == LongestZone(zones.Keys, candidate)
    ensures zone != "" ==> zone in zones
  {
    var rest := zones.Keys;
    zone := "";
    while rest != {}
      invariant rest <= zones.Keys
      invariant zone != "" ==> zone in zones && ZoneMatches(zone, candidate)
      invariant forall z :: z in zones && z !in rest && ZoneMatches(z, candidate) ==> |z| <= |zone|
      decreases |rest|
    {
      var z :| z in rest;
      if ZoneMatches(z, candidate) && |z| > |zone| {
        zone := z;
      }
      rest := rest - {z};
    }
    LongestUnique(zones.Keys, candidate, zone);
  }

  lemma LongestUnique(zones: set<string>, candidate: string, zone: string)
    requires zone != "" ==> zone in zones && ZoneMatches(zone, candidate)
    requires forall z :: z in zones && ZoneMatches(z, candidate) ==> |z| <= |zone|
    ensures zone == LongestZone(zones, candidate)
  {
    LongestZoneIsLongest(zones, candidate);
    var z := LongestZone(zones, candidate);
    assert |z| == |zone|;
    if z != "" {
      assert zone == candidate[|candidate| - |zone|..] by { MatchTail(zone, candidate); }
      assert z == candidate[|candidate| - |z|..] by { MatchTail(z, candidate); }
    }
  }

  lemma MatchTail(zone: string, candidate: string)
    requires ZoneMatches(zone, candidate)
    ensures |zone| <= |candidate| && candidate[|candidate| - |zone|..] == zone
  {
    if candidate != zone {
      assert ("." + zone)[1..] == zone;
      assert candidate[|candidate| - |zone|..] == candidate[|candidate| - |zone| - 1..][1..];
    }
  }

  /** Provider and zone for a domain; the zone is empty when the fallback answered. */
  method ProviderFor(selection: Selection, domain: string) returns (provider: string, zone: string)
    ensures zone == ZoneOf(selection, domain)
    ensures zone != "" ==> zone in selection.zones && provider == selection.zones[zone]
    ensures zone == "" ==> provider == selection.fallback
  {
    zone := LongestMatch(selection.zones, NormalizeZone(domain));
    provider := if zone == "" then selection.fallback else selection.zones[zone];
  }

  function ZoneOf(selection: Selection, domain: string): string {
    LongestZone(selection.zones.Keys, NormalizeZone(domain))
  }

  function KeyOfZone(zones: map<string, string>, zone: string): string {
    if zone == "" || zone !in zones then "" else "zone:" + zones[zone]
  }

  /** Which DNS-01 solver answers for a domain: a mapped provider, or "" for the default path. */
  function ProviderKey(selection: Selection, domain: string): string {
    KeyOfZone(selection.zones, ZoneOf(selection, domain))
  }

  predicate ZoneSolved(s: Solvers, zone: string) {
    if zone == "" || zone !in s.selection.zones then s.hasDefault else s.selection.zones[zone] in s.armed
  }

  /** Whether some DNS-01 client answers for a domain. */
  predicate HasSolver(s: Solvers, domain: string) {
    ZoneSolved(s, ZoneOf(s.selection, domain))
  }

  // ---- The same, on the configured zones themselves ----

  /** A configured zone that encloses a name, with no longer one that does. */
  ghost predicate Tightest(zones: map<string, string>, candidate: string, zone: string) {
    zone != "" && zone in zones && ZoneMatches(zone, candidate) && forall z :: z in zones && ZoneMatches(z, candidate) ==> |z| <= |zone|
  }

  lemma TightestIff(selection: Selection, domain: string, zone: string)
    ensures Tightest(selection.zones, NormalizeZone(domain), zone) <==> zone != "" && zone == ZoneOf(selection, domain)
  {
    LongestZoneIsLongest(selection.zones.Keys, NormalizeZone(domain));
    if Tightest(selection.zones, NormalizeZone(domain), zone) {
      LongestUnique(selection.zones.Keys, NormalizeZone(domain), zone);
    }
  }

  /** A DNS-01 client answers: the one of the tightest zone's provider, or the default where no zone encloses the name. */
  ghost predicate ClientAnswers(s: Solvers, domain: string) {
    || (exists zone :: Tightest(s.selection.zones, NormalizeZone(domain), zone) && s.selection.zones[zone] in s.armed)
    || (s.hasDefault && forall zone :: !Tightest(s.selection.zones, NormalizeZone(domain), zone))
  }

  lemma HasSolverIff(s: Solvers, domain: string)
    ensures HasSolver(s, domain) <==> ClientAnswers(s, domain)
  {
    LongestZoneIsLongest(s.selection.zones.Keys, NormalizeZone(domain));
    forall zone ensures Tightest(s.selection.zones, NormalizeZone(domain), zone) <==> zone != "" && zone == ZoneOf(s.selection, domain) {
      TightestIff(s.selection, domain, zone);
    }
    assert ZoneOf(s.selection, domain) != "" ==> Tightest(s.selection.zones, NormalizeZone(domain), ZoneOf(s.selection, domain));
  }

  /** Provider names come from a fixed list of plain words, none with a bar in it. */
  predicate PlainProviders(selection: Selection) {
    forall z :: z in selection.zones ==> '|' !in selection.zones[z]
  }
}
