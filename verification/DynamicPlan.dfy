/**
 * Wildcard planning for names learned from a domain source: a name one label
 * below an explicitly mapped zone is ordered as that zone's wildcard.
 */
module DynamicPlan {
  import opened Text
  import opened Names
  import opened Zones
  import opened Grouping

  /** For a name directly under a mapped zone that can be solved, that zone's wildcard. */
  function MappedZoneWildcard(s: Solvers, domain: string): Option<string> {
    var zone := ZoneOf(s.selection, domain);
    if IsWildcard(domain) || zone == "" || !OneLabelBelow(zone, NormalizeDomainName(domain)) || !HasSolver(s, "*." + zone)
    then None else Some("*." + zone)
  }

  predicate OneLabelBelow(zone: string, candidate: string) {
    HasSuffix(candidate, "." + zone)
    && var part := candidate[..|candidate| - |zone| - 1]; part != "" && '.' !in part
  }

  /** What is ordered for a name: that wildcard when there is one and it is not held, else the name. */
  function PlanIdentifier(s: Solvers, prefer: bool, held: string -> bool, domain: string): string {
    var wildcard := MappedZoneWildcard(s, domain);
    if prefer && wildcard.Some? && !held(wildcard.value) then wildcard.value else domain
  }

  method PlanDynamicIdentifiers(s: Solvers, prefer: bool, held: string -> bool, domains: seq<string>)
    returns (identifierOf: map<string, string>)
    ensures forall d :: d in identifierOf <==> d in domains
    ensures forall d :: d in identifierOf ==> identifierOf[d] == PlanIdentifier(s, prefer, held, d)
  {
    identifierOf := PlanEach((d: string) => MappedZoneWildcard(s, d), prefer, held, domains);
  }

  /** Each name, or the wildcard it is mapped to unless that is held. */
  method PlanEach(mapped: string -> Option<string>, prefer: bool, held: string -> bool, domains: seq<string>)
    returns (identifierOf: map<string, string>)
    ensures forall d :: d in identifierOf <==> d in domains
    ensures forall d :: d in identifierOf ==>
              identifierOf[d] == if prefer && mapped(d).Some? && !held(mapped(d).value) then mapped(d).value else d
  {
    identifierOf := map[];
    for i := 0 to |domains|
      invariant forall d :: d in identifierOf <==> d in domains[..i]
      invariant forall d :: d in identifierOf ==>
                  identifierOf[d] == if prefer && mapped(d).Some? && !held(mapped(d).value) then mapped(d).value else d
    {
      assert domains[..i + 1] == domains[..i] + [domains[i]];
      var domain := domains[i];
      identifierOf := identifierOf[domain := domain];
      if prefer {
        var wildcard := mapped(domain);
        if wildcard.Some? && !held(wildcard.value) {
          identifierOf := identifierOf[domain := wildcard.value];
        }
      }
    }
    assert domains[..|domains|] == domains;
  }

  /** The planned identifiers, each where its first name stood. */
  function Plan(s: Solvers, prefer: bool, held: string -> bool, domains: seq<string>): seq<string> {
    KeysInOrder(domains, (d: string) => PlanIdentifier(s, prefer, held, d))
  }

  method PlanDynamicIssuance(s: Solvers, prefer: bool, held: string -> bool, domains: seq<string>) returns (planned: seq<string>)
    ensures planned == Plan(s, prefer, held, domains)
    ensures forall x :: x in planned <==> exists d :: d in domains && x == PlanIdentifier(s, prefer, held, d)
    ensures forall i, j :: 0 <= i < j < |planned| ==> planned[i] != planned[j]
  {
    var identifierOf := PlanDynamicIdentifiers(s, prefer, held, domains);
    var plan := (d: string) => PlanIdentifier(s, prefer, held, d);
    assert forall d :: d in identifierOf ==> identifierOf[d] == plan(d);
    planned := FirstAppearances(identifierOf, plan, domains);
    PlanMembers(s, prefer, held, domains);
  }

  lemma PlanMembers(s: Solvers, prefer: bool, held: string -> bool, domains: seq<string>)
    ensures var planned := Plan(s, prefer, held, domains);
            && (forall x :: x in planned <==> exists d :: d in domains && x == PlanIdentifier(s, prefer, held, d))
            && (forall i, j :: 0 <= i < j < |planned| ==> planned[i] != planned[j])
  {
    var plan := (d: string) => PlanIdentifier(s, prefer, held, d);
    KeysFacts(domains, plan);
    forall x ensures x in KeysInOrder(domains, plan) <==> exists d :: d in domains && x == plan(d) { }
  }

  /** Collects each name's identifier unless it is already there. */
  method FirstAppearances(identifierOf: map<string, string>, plan: string -> string, domains: seq<string>) returns (planned: seq<string>)
    requires forall d :: d in domains ==> d in identifierOf && identifierOf[d] == plan(d)
    ensures planned == KeysInOrder(domains, plan)
  {
    planned := [];
    for i := 0 to |domains|
      invariant planned == KeysInOrder(domains[..i], plan)
    {
      assert domains[..i + 1][..i] == domains[..i];
      assert domains[i] in domains;
      var identifier := identifierOf[domains[i]];
      if identifier !in planned {
        planned := planned + [identifier];
      }
    }
    assert domains[..|domains|] == domains;
  }

  // ---- When a name is collapsed ----

  /**
   * Wildcards are preferred; the name is concrete and its normal form is one label
   * and a dot before the tightest configured zone that encloses it; that zone's
   * wildcard is not held, and a DNS-01 client answers for it.
   */
  ghost predicate Collapses(s: Solvers, prefer: bool, held: string -> bool, d: string, zone: string) {
    && prefer && !IsWildcard(d) && Tightest(s.selection.zones, NormalizeZone(d), zone)
    && (exists part: string :: part != "" && '.' !in part && NormalizeDomainName(d) == part + "." + zone)
    && !held("*." + zone) && ClientAnswers(s, "*." + zone)
  }

  lemma OneLabelBelowIff(zone: string, candidate: string)
    ensures OneLabelBelow(zone, candidate) <==> exists part: string :: part != "" && '.' !in part && candidate == part + "." + zone
  {
    if OneLabelBelow(zone, candidate) {
      var part := candidate[..|candidate| - |zone| - 1];
      SuffixAtDot(zone, candidate);
      assert candidate == part + "." + zone;
    }
    if part: string :| part != "" && '.' !in part && candidate == part + "." + zone {
      assert candidate[|candidate| - |zone| - 1..] == "." + zone && candidate[..|candidate| - |zone| - 1] == part;
    }
  }

  lemma CollapsesWhere(s: Solvers, prefer: bool, held: string -> bool, d: string, zone: string)
    ensures Collapses(s, prefer, held, d, zone) <==>
            prefer && MappedZoneWildcard(s, d).Some? && !held(MappedZoneWildcard(s, d).value) && zone == ZoneOf(s.selection, d)
  {
    TightestIff(s.selection, d, zone);
    OneLabelBelowIff(zone, NormalizeDomainName(d));
    HasSolverIff(s, "*." + zone);
  }

  /** A name is ordered as a zone's wildcard if and only if it collapses into that zone, and as itself if and only if it collapses into none. */
  lemma PlanIdentifierIff(s: Solvers, prefer: bool, held: string -> bool, d: string)
    ensures var x := PlanIdentifier(s, prefer, held, d);
            && (forall zone :: Collapses(s, prefer, held, d, zone) ==> x == "*." + zone)
            && ((forall zone :: !Collapses(s, prefer, held, d, zone)) ==> x == d)
  {
    var at := ZoneOf(s.selection, d);
    forall zone ensures Collapses(s, prefer, held, d, zone) <==>
      prefer && MappedZoneWildcard(s, d).Some? && !held(MappedZoneWildcard(s, d).value) && zone == at
    {
      CollapsesWhere(s, prefer, held, d, zone);
    }
    assert Collapses(s, prefer, held, d, at) <==> prefer && MappedZoneWildcard(s, d).Some? && !held(MappedZoneWildcard(s, d).value);
  }

  // ---- When a collapsed name is covered ----

  /** The text after a name's first dot is lower case and ends in neither a dot nor space. */
  predicate CanonicalTail(domain: string) {
    var dot := IndexOf(domain, '.');
    dot < |domain| - 1 && Canonical(domain[dot + 1..])
  }

  predicate Canonical(tail: string) {
    tail != "" && ToLower(tail) == tail && tail[|tail| - 1] != '.' && !IsSpace(tail[|tail| - 1])
  }

  /** Where the trimmed text sits in the original. */
  lemma {:induction false} TrimLeftShape(s: string) returns (i: nat)
    ensures i <= |s| && TrimLeft(s) == s[i..] && forall k :: 0 <= k < i ==> IsSpace(s[k])
  {
    if s != "" && IsSpace(s[0]) {
      var j := TrimLeftShape(s[1..]);
      i := j + 1;
      assert s[1..][j..] == s[i..];
      forall k | 0 <= k < i ensures IsSpace(s[k]) {
        if k > 0 { assert s[k] == s[1..][k - 1]; }
      }
    } else {
      i := 0;
    }
  }

  lemma {:induction false} TrimRightShape(s: string) returns (j: nat)
    ensures j <= |s| && TrimRight(s) == s[..j]
    ensures j < |s| ==> IsSpace(s[|s| - 1])
    ensures j > 0 ==> !IsSpace(s[j - 1])
  {
    if s != "" && IsSpace(s[|s| - 1]) {
      j := TrimRightShape(s[..|s| - 1]);
      assert s[..|s| - 1][..j] == s[..j];
    } else {
      j := |s|;
    }
  }

  /** A text found at a place in another. */
  predicate SitsAt(d: string, i: nat, core: string) {
    i + |core| <= |d| && forall k :: 0 <= k < |core| ==> d[i + k] == core[k]
  }

  /**
   * A name is space, then the text its normal form lower-cases, then what was
   * trimmed; anything trimmed at the end shows in the last character.
   */
  lemma NormalShape(d: string) returns (i: nat, core: string)
    ensures i + |core| <= |d| && SitsAt(d, i, core) && NormalizeDomainName(d) == ToLower(core)
    ensures forall k :: 0 <= k < i ==> IsSpace(d[k])
    ensures core != "" && i + |core| < |d| ==> IsSpace(d[|d| - 1]) || d[|d| - 1] == '.'
    ensures core != "" && i + |core| == |d| ==> !IsSpace(d[|d| - 1]) && d[|d| - 1] != '.'
  {
    i := TrimLeftShape(d);
    var left := d[i..];
    var j := TrimRightShape(left);
    var trimmed := left[..j];
    assert trimmed == d[i..i + j];
    core := TrimSuffix(trimmed, ".");
    assert core == d[i..i + |core|];
    if core != "" {
      assert left[|left| - 1] == d[|d| - 1];
      if |core| < j {
        assert trimmed[|trimmed| - 1..] == ".";
        assert d[i + j - 1] == trimmed[j - 1] == trimmed[|trimmed| - 1..][0];
      } else {
        assert trimmed == core && j > 0;
        assert trimmed[|trimmed| - 1..] == [trimmed[j - 1]];
        assert trimmed[j - 1] == left[j - 1];
      }
    }
  }

  /** The zone part of a lower-cased name, read back in the name itself. */
  lemma ZonePart(core: string, zone: string) returns (at: nat)
    requires OneLabelBelow(zone, ToLower(core))
    ensures at > 0 && at + 1 + |zone| == |core| && core[at] == '.'
    ensures forall k :: 0 <= k < at ==> core[k] != '.'
    ensures forall k :: 0 <= k < |zone| ==> LowerChar(core[at + 1 + k]) == zone[k]
  {
    var lower := ToLower(core);
    at := |core| - |zone| - 1;
    var end := lower[at..];
    assert end == "." + zone;
    assert end[0] == '.' && lower[at] == end[0];
    assert LowerChar(core[at]) == '.';
    forall k | 0 <= k < at ensures core[k] != '.' {
      assert lower[k] in lower[..at];
    }
    forall k | 0 <= k < |zone| ensures LowerChar(core[at + 1 + k]) == zone[k] {
      assert end[k + 1] == zone[k] && end[k + 1] == lower[at + 1 + k];
    }
  }

  /** The first dot of a name one label below a zone ends its only extra label. */
  lemma FirstDot(d: string, i: nat, core: string, at: nat)
    requires i + |core| <= |d| && SitsAt(d, i, core)
    requires forall k :: 0 <= k < i ==> IsSpace(d[k])
    requires at < |core| && core[at] == '.' && forall k :: 0 <= k < at ==> core[k] != '.'
    ensures IndexOf(d, '.') == i + at
  {
    forall k | 0 <= k < i + at ensures d[k] != '.' {
      if k >= i { assert d[i + (k - i)] == core[k - i]; }
    }
    assert d[i + at] == core[at];
    IndexOfFirst(d, '.', i + at);
  }

  /** The tail is the zone exactly when nothing was trimmed from it and it was lower case already. */
  lemma TailIff(tail: string, zone: string)
    requires zone != "" && |tail| >= |zone|
    requires forall k :: 0 <= k < |zone| ==> LowerChar(tail[k]) == zone[k]
    requires |tail| > |zone| <==> IsSpace(tail[|tail| - 1]) || tail[|tail| - 1] == '.'
    ensures tail == zone <==> Canonical(tail)
  {
    if |tail| == |zone| {
      assert ToLower(tail) == zone;
    }
  }

  /** A collapsed name is covered by its wildcard exactly when its tail is canonical. */
  lemma CollapseCoversIff(s: Solvers, d: string)
    requires MappedZoneWildcard(s, d).Some?
    ensures MatchesWildcard(MappedZoneWildcard(s, d).value, d) <==> CanonicalTail(d)
  {
    BelowCoversIff(ZoneOf(s.selection, d), d);
  }

  lemma BelowCoversIff(zone: string, d: string)
    requires zone != "" && OneLabelBelow(zone, NormalizeDomainName(d))
    ensures MatchesWildcard("*." + zone, d) <==> CanonicalTail(d)
  {
    var i, core := NormalShape(d);
    ShapeCoversIff(zone, d, i, core);
  }

  lemma ShapeCoversIff(zone: string, d: string, i: nat, core: string)
    requires zone != "" && OneLabelBelow(zone, ToLower(core))
    requires i + |core| <= |d| && SitsAt(d, i, core)
    requires forall k :: 0 <= k < i ==> IsSpace(d[k])
    requires core != "" ==> (i + |core| < |d| <==> IsSpace(d[|d| - 1]) || d[|d| - 1] == '.')
    ensures MatchesWildcard("*." + zone, d) <==> CanonicalTail(d)
  {
    var at := ZonePart(core, zone);
    FirstDot(d, i, core, at);
    var tail := d[i + at + 1..];
    TailChars(d, i, core, at, zone);
    TailIff(tail, zone);
    SameTail(zone, tail);
    ParentAt(d, i + at);
  }

  lemma TailChars(d: string, i: nat, core: string, at: nat, zone: string)
    requires i + |core| <= |d| && SitsAt(d, i, core) && zone != "" && at + 1 + |zone| == |core|
    requires forall k :: 0 <= k < |zone| ==> LowerChar(core[at + 1 + k]) == zone[k]
    ensures var tail := d[i + at + 1..];
            && |tail| >= |zone| && tail[|tail| - 1] == d[|d| - 1] && |tail| - |zone| == |d| - i - |core|
            && forall k :: 0 <= k < |zone| ==> LowerChar(tail[k]) == zone[k]
  {
    var tail := d[i + at + 1..];
    forall k | 0 <= k < |zone| ensures LowerChar(tail[k]) == zone[k] {
      assert tail[k] == d[i + (at + 1 + k)] == core[at + 1 + k];
    }
  }

  /** The wildcard above a name, and its tail, read at its first dot. */
  lemma ParentAt(d: string, dot: nat)
    requires dot == IndexOf(d, '.') && 0 < dot < |d| - 1
    ensures WildcardParent(d) == Some("*." + d[dot + 1..])
    ensures CanonicalTail(d) <==> Canonical(d[dot + 1..])
  {
  }

  lemma SameTail(zone: string, tail: string)
    ensures IsWildcard("*." + zone)
    ensures "*." + tail == "*." + zone <==> tail == zone
  {
    assert ("*." + zone)[..2] == "*.";
    assert ("*." + tail)[2..] == tail && ("*." + zone)[2..] == zone;
  }

  /** A name's own planned identifier covers it exactly when it was not collapsed or its tail is canonical. */
  lemma PlanCoversIff(s: Solvers, prefer: bool, held: string -> bool, d: string)
    ensures IdentifiersCover([PlanIdentifier(s, prefer, held, d)], d) <==>
            PlanIdentifier(s, prefer, held, d) == d || CanonicalTail(d)
  {
    CoverOne(PlanIdentifier(s, prefer, held, d), d);
    if PlanIdentifier(s, prefer, held, d) != d {
      CollapseCoversIff(s, d);
    }
  }

  lemma CoverOne(identifier: string, d: string)
    ensures IdentifiersCover([identifier], d) <==> identifier == d || MatchesWildcard(identifier, d)
  {
    assert [identifier][0] == identifier;
  }

  // ---- Names a domain source may report ----

  function Labels(domain: string): (labels: seq<string>)
    ensures |labels| > 0
    decreases |domain|
  {
    var dot := IndexOf(domain, '.');
    if dot == |domain| then [domain] else [domain[..dot]] + Labels(domain[dot + 1..])
  }

  predicate LabelChar(c: char) {
    'a' <= c <= 'z' || '0' <= c <= '9' || c == '-'
  }

  predicate ValidLabel(text: string) {
    0 < |text| <= 63 && text[0] != '-' && text[|text| - 1] != '-' && forall i :: 0 <= i < |text| ==> LabelChar(text[i])
  }

  /** What the domain source accepts: lower-case hostnames of at least two labels. */
  predicate ValidDynamicDomain(domain: string) {
    var labels := Labels(domain);
    && 0 < |domain| <= 253 && |labels| >= 2
    && (forall i :: 0 <= i < |labels| ==> ValidLabel(labels[i]))
    && var tld := labels[|labels| - 1]; exists i :: 0 <= i < |tld| && 'a' <= tld[i] <= 'z'
  }

  predicate HostChars(text: string) {
    forall k :: 0 <= k < |text| ==> LabelChar(text[k]) || text[k] == '.'
  }

  lemma JoinChars(a: string, b: string)
    requires HostChars(a) && HostChars(b)
    ensures HostChars(a + "." + b)
  {
  }

  lemma {:induction false} LabelsAtDot(domain: string)
    ensures var dot := IndexOf(domain, '.');
            && Labels(domain)[0] == (if dot == |domain| then domain else domain[..dot])
            && (dot < |domain| ==> Labels(domain) == [domain[..dot]] + Labels(domain[dot + 1..]))
  {
  }

  lemma ValidTail(first: string, rest: seq<string>)
    requires forall i :: 0 <= i < |[first] + rest| ==> ValidLabel(([first] + rest)[i])
    ensures ValidLabel(first) && forall i :: 0 <= i < |rest| ==> ValidLabel(rest[i])
  {
    assert ([first] + rest)[0] == first;
    forall i | 0 <= i < |rest| ensures ValidLabel(rest[i]) {
      assert ([first] + rest)[i + 1] == rest[i];
    }
  }

  lemma {:induction false} LabelsShape(domain: string)
    requires forall i :: 0 <= i < |Labels(domain)| ==> ValidLabel(Labels(domain)[i])
    ensures domain != "" && HostChars(domain) && LabelChar(domain[|domain| - 1])
    decreases |domain|
  {
    var dot := IndexOf(domain, '.');
    LabelsAtDot(domain);
    if dot < |domain| {
      var rest := domain[dot + 1..];
      ValidTail(domain[..dot], Labels(rest));
      LabelsShape(rest);
      JoinChars(domain[..dot], rest);
      SplitAtDot(domain, dot);
    }
  }

  lemma SplitAtDot(domain: string, dot: nat)
    requires dot < |domain| && domain[dot] == '.'
    ensures domain == domain[..dot] + "." + domain[dot + 1..]
    ensures dot + 1 < |domain| ==> domain[|domain| - 1] == domain[dot + 1..][|domain| - dot - 2]
  {
  }

  lemma OneLabel(domain: string)
    requires IndexOf(domain, '.') == |domain|
    ensures |Labels(domain)| == 1
  {
  }

  lemma HostTailCanonical(tail: string)
    requires HostChars(tail) && tail != "" && LabelChar(tail[|tail| - 1])
    ensures Canonical(tail)
  {
    assert forall k :: 0 <= k < |tail| ==> LowerChar(tail[k]) == tail[k];
    assert ToLower(tail) == tail;
  }

  lemma ValidIsCanonical(domain: string)
    requires ValidDynamicDomain(domain)
    ensures CanonicalTail(domain)
  {
    LabelsShape(domain);
    var dot := IndexOf(domain, '.');
    if dot == |domain| {
      OneLabel(domain);
    } else {
      var tail := domain[dot + 1..];
      LastNotDot(domain, dot);
      assert forall k :: 0 <= k < |tail| ==> tail[k] == domain[dot + 1 + k];
      HostTailCanonical(tail);
    }
  }

  lemma LastNotDot(domain: string, dot: nat)
    requires dot < |domain| && domain[dot] == '.' && LabelChar(domain[|domain| - 1])
    ensures dot < |domain| - 1 && domain[dot + 1..] != "" && domain[dot + 1..][|domain| - dot - 2] == domain[|domain| - 1]
  {
  }

  /** However zones are mapped and wildcards held, every name a source may report is covered by its plan. */
  lemma ValidatedNamesCovered(s: Solvers, prefer: bool, held: string -> bool, domains: seq<string>, planned: seq<string>, d: string)
    requires forall x :: x in planned <==> exists e :: e in domains && x == PlanIdentifier(s, prefer, held, e)
    requires d in domains && ValidDynamicDomain(d)
    ensures IdentifiersCover(planned, d)
  {
    ValidIsCanonical(d);
    PlanCoversIff(s, prefer, held, d);
    assert PlanIdentifier(s, prefer, held, d) in planned;
    CoverMonotone([PlanIdentifier(s, prefer, held, d)], planned, d);
  }

  /** The failing family is inhabited: a mixed-case name under a mapped zone collapses into a wildcard that misses it. */
  lemma MixedCaseIsMissed(s: Solvers, d: string, zone: string, wildcard: string)
    requires d == "x.A.io" && zone == "a.io" && wildcard == "*." + zone
    requires s == Solvers(Selection("", map[zone := "p"]), false, {"p"})
    ensures MappedZoneWildcard(s, d) == Some(wildcard) && !IdentifiersCover([wildcard], d)
  {
    MixedCaseMaps(s, d, zone, wildcard);
    MixedCaseMissed(d, zone, wildcard);
  }

  lemma MixedCaseMaps(s: Solvers, d: string, zone: string, wildcard: string)
    requires d == "x.A.io" && zone == "a.io" && wildcard == "*." + zone
    requires s == Solvers(Selection("", map[zone := "p"]), false, {"p"})
    ensures MappedZoneWildcard(s, d) == Some(wildcard)
  {
    MixedCaseName(d);
    BelowItsZone(zone, NormalizeDomainName(d));
    OnlyZone(s.selection, d, zone);
    MixedCaseSolved(s, zone, wildcard);
    MapsTo(s, d, zone, wildcard);
  }

  lemma MixedCaseSolved(s: Solvers, zone: string, wildcard: string)
    requires zone == "a.io" && wildcard == "*." + zone && s == Solvers(Selection("", map[zone := "p"]), false, {"p"})
    ensures HasSolver(s, wildcard)
  {
    MixedCaseZone(wildcard);
    OnlyZone(s.selection, wildcard, zone);
  }

  lemma MapsTo(s: Solvers, d: string, zone: string, wildcard: string)
    requires !IsWildcard(d) && zone != "" && ZoneOf(s.selection, d) == zone && wildcard == "*." + zone
    requires OneLabelBelow(zone, NormalizeDomainName(d)) && HasSolver(s, wildcard)
    ensures MappedZoneWildcard(s, d) == Some(wildcard)
  {
  }

  lemma MixedCaseMissed(d: string, zone: string, wildcard: string)
    requires d == "x.A.io" && zone == "a.io" && wildcard == "*." + zone
    ensures !IdentifiersCover([wildcard], d)
  {
    IndexOfIs(d, '.', 1);
    ParentAt(d, 1);
    assert wildcard[2] == 'a' && ("*." + d[2..])[2] == 'A' && wildcard[0] != d[0];
  }

  lemma BelowItsZone(zone: string, low: string)
    requires zone == "a.io" && low == "x.a.io"
    ensures OneLabelBelow(zone, low) && ZoneMatches(zone, low)
  {
    assert low[1..] == "." + zone && low[..1] == "x";
  }

  lemma MixedCaseName(d: string)
    requires d == "x.A.io"
    ensures NormalizeDomainName(d) == "x.a.io" && NormalizeZone(d) == "x.a.io" && !IsWildcard(d) && !CanonicalTail(d)
  {
    assert ToLower(d) == "x.a.io";
    assert d[..2] == "x." && !IsWildcard(d);
    UnpaddedName(d);
    UnpaddedZone(d);
    IndexOfIs(d, '.', 1);
    var tail := d[2..];
    assert tail[0] == 'A' && ToLower(tail)[0] == 'a';
  }

  lemma MixedCaseZone(w: string)
    requires w == "*.a.io"
    ensures NormalizeZone(w) == "a.io"
  {
    assert w[..2] == "*." && ToLower(w) == w && w[2..] == "a.io";
    UnpaddedZone(w);
  }

  lemma OnlyZone(selection: Selection, domain: string, zone: string)
    requires selection.zones.Keys == {zone} && zone != "" && ZoneMatches(zone, NormalizeZone(domain))
    ensures ZoneOf(selection, domain) == zone
  {
    LongestZoneIsLongest(selection.zones.Keys, NormalizeZone(domain));
  }
}
