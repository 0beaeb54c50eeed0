/**
 * Wildcard planning for deploy-registered hosts: names are grouped under their
 * registrable domain, and a group collapses into "*.root" when the batch asks
 * for it or enough single-level siblings make it worthwhile.
 */
module DeployPlan {
  import opened Text
  import opened Names

  /**
   * `root` gives a name's registrable domain, or the name itself when it has
   * none; `solvable` says whether a DNS provider answers for a wildcard.
   */
  datatype Config = Config(
    root: string -> string,
    solvable: string -> bool,
    dnsAvailable: bool,
    prefer: bool,
    minimum: nat
  )

  /** All that is used of the public suffix list: a registrable domain is its name, or the name below some labels. */
  ghost predicate RootsAreSuffixes(c: Config) {
    forall d :: c.root(d) == d || Below(d, c.root(d))
  }

  predicate Below(domain: string, root: string) {
    root != "" && |domain| > |root| + 1 && HasSuffix(domain, "." + root)
  }

  /** A group of a batch: what is registered under one root, and the wildcard asked for explicitly. */
  datatype Group = Group(full: seq<string>, subdomains: seq<string>, apex: bool, wildcard: Option<string>)

  const NoGroup := Group([], [], false, None)

  function KeyOf(c: Config, domain: string): string {
    if IsWildcard(domain) then domain[2..] else c.root(domain)
  }

  function Joined(g: Group, root: string, domain: string): Group {
    if IsWildcard(domain) then g.(wildcard := Some(domain))
    else if domain == root then g.(full := g.full + [domain], apex := true)
    else g.(full := g.full + [domain], subdomains := g.subdomains + [TrimSuffix(domain, "." + root)])
  }

  /** The group a batch builds for one root. */
  function GroupOf(c: Config, domains: seq<string>, root: string): Group {
    if domains == [] then NoGroup else
      var before := GroupOf(c, domains[..|domains| - 1], root);
      var domain := domains[|domains| - 1];
      if KeyOf(c, domain) == root then Joined(before, root, domain) else before
  }

  predicate SingleLevel(g: Group) {
    forall i :: 0 <= i < |g.subdomains| ==> '.' !in g.subdomains[i]
  }

  /** The wildcard a group is issued under, if any. */
  function WildcardOf(c: Config, g: Group, root: string): Option<string> {
    if g.wildcard.Some? then g.wildcard
    else if c.dnsAvailable && c.prefer && SingleLevel(g) && |g.subdomains| >= c.minimum then Some("*." + root)
    else None
  }

  /** The identifiers one group contributes to the order. */
  function GroupPlan(c: Config, g: Group, root: string, explicit: bool): seq<string> {
    var wildcard := WildcardOf(c, g, root);
    if wildcard.None? || (!explicit && !c.solvable(wildcard.value)) then g.full
    else [wildcard.value] + (if g.apex then [root] else [])
  }

  function Contribution(c: Config, domains: seq<string>, root: string): seq<string> {
    GroupPlan(c, GroupOf(c, domains, root), root, "*." + root in domains)
  }

  ghost predicate Planned(c: Config, domains: seq<string>, x: string) {
    exists d :: d in domains && x in Contribution(c, domains, KeyOf(c, d))
  }

  // ---- What a group holds ----

  lemma WildcardText(root: string)
    ensures IsWildcard("*." + root) && ("*." + root)[2..] == root
  {
    assert ("*." + root)[..2] == "*.";
  }

  lemma WildcardIs(domain: string)
    requires IsWildcard(domain)
    ensures domain == "*." + domain[2..]
  {
    assert domain == domain[..2] + domain[2..];
  }

  /** The bookkeeping of a group, in terms of the batch. */
  lemma {:induction false} GroupFacts(c: Config, domains: seq<string>, root: string)
    ensures var g := GroupOf(c, domains, root);
            && (forall x :: x in g.full <==> x in domains && !IsWildcard(x) && c.root(x) == root)
            && (g.apex <==> root in domains && !IsWildcard(root) && c.root(root) == root)
            && (g.wildcard == if "*." + root in domains then Some("*." + root) else None)
            && (forall x :: x in g.full && x != root ==> TrimSuffix(x, "." + root) in g.subdomains)
  {
    if domains != [] {
      var front, last := domains[..|domains| - 1], domains[|domains| - 1];
      assert domains == front + [last];
      GroupFacts(c, front, root);
      var before, g := GroupOf(c, front, root), GroupOf(c, domains, root);
      WildcardText(root);
      if IsWildcard(last) { WildcardIs(last); }
    }
  }

  /** A single-level name below a root is covered by the root's wildcard, and a deeper one is not. */
  lemma BelowCovered(domain: string, root: string)
    requires Below(domain, root)
    ensures MatchesWildcard("*." + root, domain) <==> '.' !in TrimSuffix(domain, "." + root)
  {
    var part := TrimSuffix(domain, "." + root);
    assert domain == part + "." + root;
    WildcardText(root);
    assert ("*." + root)[1..] == "." + root;
    MatchesWildcardIff("*." + root, domain);
    if MatchesWildcard("*." + root, domain) {
      var p: string :| p != "" && '.' !in p && domain == p + ("*." + root)[1..];
      assert |p| == |part|;
      assert p == domain[..|p|] && part == domain[..|part|];
    } else if '.' !in part {
      assert domain == part + ("*." + root)[1..];
    }
  }

  // ---- Coverage ----

  predicate Explicit(domains: seq<string>, root: string) {
    "*." + root in domains
  }

  /** A group collapsed on its own merits. */
  predicate Collapsed(c: Config, domains: seq<string>, root: string) {
    var g := GroupOf(c, domains, root);
    !Explicit(domains, root) && c.dnsAvailable && c.prefer && SingleLevel(g) && |g.subdomains| >= c.minimum && c.solvable("*." + root)
  }

  /** What one group contributes, in the batch's own terms. */
  lemma ContributionIs(c: Config, domains: seq<string>, root: string)
    ensures var wild := Explicit(domains, root) || Collapsed(c, domains, root);
            forall x :: x in Contribution(c, domains, root) <==>
              if wild then x == "*." + root || (x == root && x in GroupOf(c, domains, root).full)
              else x in GroupOf(c, domains, root).full
  {
    GroupFacts(c, domains, root);
  }

  /** A name two or more labels below a root whose wildcard the batch asks for explicitly. */
  predicate Hidden(c: Config, domains: seq<string>, d: string) {
    !IsWildcard(d) && d != c.root(d) && Explicit(domains, c.root(d)) && '.' in TrimSuffix(d, "." + c.root(d))
  }

  /** A hidden name has another way in: its own wildcard parent is asked for or collapsed. */
  ghost predicate Rescued(c: Config, domains: seq<string>, d: string) {
    WildcardParent(d).Some? && var zone := WildcardParent(d).value[2..];
    Explicit(domains, zone) || (Collapsed(c, domains, zone) && exists e :: e in domains && KeyOf(c, e) == zone)
  }

  ghost predicate CoveredByPlan(c: Config, domains: seq<string>, d: string) {
    exists x :: Planned(c, domains, x) && (x == d || MatchesWildcard(x, d))
  }

  lemma Contributes(c: Config, domains: seq<string>, e: string, x: string)
    requires e in domains && x in Contribution(c, domains, KeyOf(c, e))
    ensures Planned(c, domains, x)
  {
  }

  lemma NotHiddenCovered(c: Config, domains: seq<string>, d: string)
    requires RootsAreSuffixes(c) && d in domains && !Hidden(c, domains, d)
    ensures CoveredByPlan(c, domains, d)
  {
    var root := KeyOf(c, d);
    ContributionIs(c, domains, root);
    GroupFacts(c, domains, root);
    if IsWildcard(d) {
      WildcardIs(d);
      Contributes(c, domains, d, d);
    } else if d == root || !(Explicit(domains, root) || Collapsed(c, domains, root)) {
      Contributes(c, domains, d, d);
    } else {
      var part := TrimSuffix(d, "." + root);
      if Collapsed(c, domains, root) {
        var g := GroupOf(c, domains, root);
        assert part in g.subdomains;
      }
      BelowCovered(d, root);
      Contributes(c, domains, d, "*." + root);
    }
  }

  lemma RescuedCovered(c: Config, domains: seq<string>, d: string)
    requires Rescued(c, domains, d)
    ensures CoveredByPlan(c, domains, d)
  {
    var parent := WildcardParent(d).value;
    var zone := parent[2..];
    WildcardText(zone);
    assert parent == "*." + zone;
    ContributionIs(c, domains, zone);
    if Explicit(domains, zone) {
      Contributes(c, domains, parent, parent);
    } else {
      var e :| e in domains && KeyOf(c, e) == zone;
      Contributes(c, domains, e, parent);
    }
  }

  /** A covering identifier of a hidden name can only be its wildcard parent. */
  lemma HiddenNeedsRescue(c: Config, domains: seq<string>, d: string)
    requires RootsAreSuffixes(c) && Hidden(c, domains, d) && CoveredByPlan(c, domains, d)
    ensures Rescued(c, domains, d)
  {
    var x :| Planned(c, domains, x) && (x == d || MatchesWildcard(x, d));
    var e :| e in domains && x in Contribution(c, domains, KeyOf(c, e));
    var key := KeyOf(c, e);
    ContributionIs(c, domains, key);
    GroupFacts(c, domains, key);
    WildcardText(key);
    assert x != d;
    assert x == "*." + key;
  }

  /**
   * A deploy batch is covered by its plan exactly when every name hidden below an
   * explicit wildcard has a wildcard parent that is asked for or collapsed too.
   */
  lemma DeployPlanCoversIff(c: Config, domains: seq<string>)
    requires RootsAreSuffixes(c)
    ensures (forall d :: d in domains ==> CoveredByPlan(c, domains, d)) <==>
            (forall d :: d in domains && Hidden(c, domains, d) ==> Rescued(c, domains, d))
  {
    forall d | d in domains ensures CoveredByPlan(c, domains, d) <==> !Hidden(c, domains, d) || Rescued(c, domains, d) {
      if !Hidden(c, domains, d) {
        NotHiddenCovered(c, domains, d);
      } else if Rescued(c, domains, d) {
        RescuedCovered(c, domains, d);
      } else if CoveredByPlan(c, domains, d) {
        HiddenNeedsRescue(c, domains, d);
      }
    }
  }

  /** In particular a batch with no explicit wildcard always is. */
  lemma NoWildcardNoneHidden(c: Config, domains: seq<string>)
    requires RootsAreSuffixes(c) && forall d :: d in domains ==> !IsWildcard(d)
    ensures forall d :: d in domains ==> CoveredByPlan(c, domains, d)
  {
    forall d | d in domains ensures !Hidden(c, domains, d) {
      WildcardText(c.root(d));
    }
    DeployPlanCoversIff(c, domains);
  }

  /**
   * The failing family of the planner function is inhabited: given an explicit
   * "*.a.io", it leaves "x.y.a.io" out. Deploys refuse hosts with a star in them
   * before they reach it.
   */
  lemma ExplicitWildcardHides()
    ensures var c := Config((d: string) => if d == "x.y.a.io" then "a.io" else d, _ => true, true, true, 2);
            RootsAreSuffixes(c) && !CoveredByPlan(c, ["*.a.io", "x.y.a.io"], "x.y.a.io")
  {
    var c := Config((d: string) => if d == "x.y.a.io" then "a.io" else d, _ => true, true, true, 2);
    DeepName("x.y.a.io");
    assert RootsAreSuffixes(c);
    assert "*." + "a.io" == "*.a.io";
    HidesDeepName(c, "x.y.a.io", "a.io", "*.a.io");
  }

  lemma DeepName(d: string)
    requires d == "x.y.a.io"
    ensures !IsWildcard(d) && Below(d, "a.io") && '.' in TrimSuffix(d, "." + "a.io")
    ensures WildcardParent(d) == Some("*.y.a.io") && !IsWildcard("a.io")
  {
    assert d[..2] == "x." && d[3..] == ".a.io" && d[..3] == "x.y" && "." + "a.io" == ".a.io" && "x.y"[1] == '.';
    IndexOfIs(d, '.', 1);
    assert d[2..] == "y.a.io" && "*." + "y.a.io" == "*.y.a.io";
    assert "a.io"[..2] == "a.";
  }

  /** A batch of one explicit wildcard and one name deeper than it covers never covers the name. */
  lemma HidesDeepName(c: Config, d: string, root: string, wildcard: string)
    requires RootsAreSuffixes(c) && c.root(d) == root && wildcard == "*." + root
    requires !IsWildcard(d) && Below(d, root) && '.' in TrimSuffix(d, "." + root)
    ensures !CoveredByPlan(c, [wildcard, d], d)
  {
    var domains := [wildcard, d];
    assert wildcard in domains && d in domains;
    WildcardText(root);
    assert Hidden(c, domains, d);
    if WildcardParent(d).Some? {
      var parent := WildcardParent(d).value;
      var zone := parent[2..];
      WildcardText(zone);
      BelowCovered(d, root);
      assert parent == "*." + zone && parent != wildcard;
      assert !Explicit(domains, zone);
      assert KeyOf(c, wildcard) == root && KeyOf(c, d) == root && zone != root;
    }
    if CoveredByPlan(c, domains, d) {
      HiddenNeedsRescue(c, domains, d);
    }
  }

  // ---- The planner ----

  /** One pass over the batch, each name updating its root's group. */
  method AnalyzeDomains(c: Config, domains: seq<string>) returns (groups: map<string, Group>)
    ensures forall root :: root in groups <==> exists d :: d in domains && KeyOf(c, d) == root
    ensures forall root :: root in groups ==> groups[root] == GroupOf(c, domains, root)
  {
    groups := map[];
    for i := 0 to |domains|
      invariant forall root :: root in groups <==> exists d :: d in domains[..i] && KeyOf(c, d) == root
      invariant forall root :: root in groups ==> groups[root] == GroupOf(c, domains[..i], root)
    {
      assert domains[..i + 1] == domains[..i] + [domains[i]];
      assert domains[..i + 1][..i] == domains[..i];
      var root := KeyOf(c, domains[i]);
      if root !in groups {
        UnseenRoot(c, domains[..i], root);
        groups := groups[root := NoGroup];
      }
      groups := groups[root := Joined(groups[root], root, domains[i])];
    }
    assert domains[..|domains|] == domains;
  }

  lemma {:induction false} UnseenRoot(c: Config, domains: seq<string>, root: string)
    requires forall d :: d in domains ==> KeyOf(c, d) != root
    ensures GroupOf(c, domains, root) == NoGroup
  {
    if domains != [] {
      var front := domains[..|domains| - 1];
      assert domains == front + [domains[|domains| - 1]];
      assert forall d :: d in front ==> d in domains;
      UnseenRoot(c, front, root);
    }
  }

  /**
   * The planned identifiers: each group's contribution, groups in ascending order
   * of their roots. `enabled` is false while the manager has no DNS client at all.
   */
  method PlanIssuanceDomains(c: Config, enabled: bool, domains: seq<string>) returns (planned: seq<string>)
    ensures !enabled ==> planned == domains
    ensures enabled ==> exists roots :: RootsInOrder(c, domains, roots) && planned == PlanOf(c, domains, roots)
    ensures enabled ==> forall x :: x in planned <==> Planned(c, domains, x)
    ensures RootsAreSuffixes(c) && (forall d :: d in domains ==> !IsWildcard(d)) ==>
              forall d :: d in domains ==> IdentifiersCover(planned, d)
  {
    if !enabled {
      return domains;
    }
    var roots: seq<string>;
    planned, roots := PlanGroups(c, domains);
    forall x ensures x in planned <==> Planned(c, domains, x) {
      PlanOfIsPlanned(c, domains, roots, x);
    }
    if planned == [] {
      if domains != [] {
        var x := NeverEmpty(c, domains);
      }
      planned := domains;
    }
    if RootsAreSuffixes(c) && forall d :: d in domains ==> !IsWildcard(d) {
      NoWildcardNoneHidden(c, domains);
      forall d | d in domains ensures IdentifiersCover(planned, d) {
        var x :| Planned(c, domains, x) && (x == d || MatchesWildcard(x, d));
        var i :| 0 <= i < |planned| && planned[i] == x;
      }
    }
  }

  /** Every batch with a name in it plans something. */
  lemma NeverEmpty(c: Config, domains: seq<string>) returns (x: string)
    requires domains != []
    ensures Planned(c, domains, x)
  {
    var d := domains[0];
    var root := KeyOf(c, d);
    ContributionIs(c, domains, root);
    GroupFacts(c, domains, root);
    if IsWildcard(d) { WildcardIs(d); }
    x := if Explicit(domains, root) || Collapsed(c, domains, root) then "*." + root else d;
    Contributes(c, domains, d, x);
  }

  // ---- Groups come sorted by root ----

  predicate Ascending(roots: seq<string>) {
    forall i, j :: 0 <= i < j < |roots| ==> Less(roots[i], roots[j])
  }

  /** The roots of a batch, each once, in ascending order. */
  ghost predicate RootsInOrder(c: Config, domains: seq<string>, roots: seq<string>) {
    Ascending(roots) && forall root :: root in roots <==> exists d :: d in domains && KeyOf(c, d) == root
  }

  /** What the groups contribute, one after the other. */
  function PlanOf(c: Config, domains: seq<string>, roots: seq<string>): seq<string> {
    if roots == [] then [] else PlanOf(c, domains, roots[..|roots| - 1]) + Contribution(c, domains, roots[|roots| - 1])
  }

  lemma {:induction false} PlanOfHolds(c: Config, domains: seq<string>, roots: seq<string>, x: string)
    ensures x in PlanOf(c, domains, roots) <==> exists root :: root in roots && x in Contribution(c, domains, root)
  {
    if roots != [] {
      var front, last := roots[..|roots| - 1], roots[|roots| - 1];
      PlanOfHolds(c, domains, front, x);
      assert roots == front + [last];
    }
  }

  /** A batch has its roots in order in one way only, so its plan is one list. */
  lemma {:induction false} RootsUnique(p: seq<string>, q: seq<string>)
    requires Ascending(p) && Ascending(q) && forall root :: root in p <==> root in q
    ensures p == q
  {
    if p != [] { assert p[0] in q; }
    if q != [] { assert q[0] in p; }
    if p != [] {
      var m, n := |p| - 1, |q| - 1;
      SameGreatest(p, q);
      forall root ensures root in p[..m] <==> root in q[..n] {
        AllButLast(p, root);
        AllButLast(q, root);
      }
      RootsUnique(p[..m], q[..n]);
      assert p == p[..m] + [p[m]] && q == q[..n] + [q[n]];
    }
  }

  lemma AllButLast(p: seq<string>, root: string)
    requires Ascending(p) && p != []
    ensures root in p[..|p| - 1] <==> root in p && root != p[|p| - 1]
  {
    var m := |p| - 1;
    if root in p[..m] {
      var i :| 0 <= i < m && p[..m][i] == root;
      LessAsymmetric(p[i], p[m]);
    }
  }

  lemma SameGreatest(p: seq<string>, q: seq<string>)
    requires Ascending(p) && Ascending(q) && p != [] && q != [] && forall root :: root in p <==> root in q
    ensures p[|p| - 1] == q[|q| - 1]
  {
    var a, b := p[|p| - 1], q[|q| - 1];
    assert a in q && b in p;
    var i :| 0 <= i < |q| && q[i] == a;
    var j :| 0 <= j < |p| && p[j] == b;
    if a != b {
      LessAsymmetric(a, b);
    }
  }

  /** Whatever a group contributes belongs to its root, so no identifier comes from two groups. */
  lemma ContributedOnce(c: Config, domains: seq<string>, root: string, x: string)
    requires x in Contribution(c, domains, root)
    ensures KeyOf(c, x) == root
  {
    ContributionIs(c, domains, root);
    GroupFacts(c, domains, root);
    WildcardText(root);
  }

  predicate Distinct(l: seq<string>) {
    forall i, j :: 0 <= i < j < |l| ==> l[i] != l[j]
  }

  lemma {:induction false} FullDistinct(c: Config, domains: seq<string>, root: string)
    requires Distinct(domains)
    ensures Distinct(GroupOf(c, domains, root).full)
  {
    if domains != [] {
      var front, last := domains[..|domains| - 1], domains[|domains| - 1];
      FullDistinct(c, front, root);
      GroupFacts(c, front, root);
      assert last !in GroupOf(c, front, root).full;
    }
  }

  lemma ContributionDistinct(c: Config, domains: seq<string>, root: string)
    requires Distinct(domains)
    ensures Distinct(Contribution(c, domains, root))
  {
    FullDistinct(c, domains, root);
    GroupFacts(c, domains, root);
    assert |"*." + root| == |root| + 2;
  }

  lemma ConcatDistinct(a: seq<string>, b: seq<string>)
    requires Distinct(a) && Distinct(b) && forall x :: x in a ==> x !in b
    ensures Distinct(a + b)
  {
    forall i, j | 0 <= i < j < |a + b| ensures (a + b)[i] != (a + b)[j] {
      if i < |a| <= j {
        assert a[i] in a && b[j - |a|] in b;
      }
    }
  }

  /** A batch without repetitions is planned without repetitions. */
  lemma {:induction false} PlannedOnce(c: Config, domains: seq<string>, roots: seq<string>)
    requires Distinct(domains) && Ascending(roots)
    ensures Distinct(PlanOf(c, domains, roots))
  {
    if roots != [] {
      var front, last := roots[..|roots| - 1], roots[|roots| - 1];
      PlannedOnce(c, domains, front);
      ContributionDistinct(c, domains, last);
      forall x | x in PlanOf(c, domains, front) ensures x !in Contribution(c, domains, last) {
        PlanOfHolds(c, domains, front, x);
        var root :| root in front && x in Contribution(c, domains, root);
        AllButLast(roots, root);
        ContributedOnce(c, domains, root, x);
        if x in Contribution(c, domains, last) {
          ContributedOnce(c, domains, last, x);
        }
      }
      ConcatDistinct(PlanOf(c, domains, front), Contribution(c, domains, last));
    }
  }

  function InsertRoot(roots: seq<string>, root: string): (r: seq<string>)
    ensures forall x :: x in r <==> x in roots || x == root
  {
    if roots == [] || Less(root, roots[0]) then [root] + roots else [roots[0]] + InsertRoot(roots[1..], root)
  }

  lemma {:induction false} InsertAscends(roots: seq<string>, root: string)
    requires Ascending(roots) && root !in roots
    ensures Ascending(InsertRoot(roots, root))
  {
    var r := InsertRoot(roots, root);
    if roots == [] {
    } else if Less(root, roots[0]) {
      forall i | 0 <= i < |roots| ensures Less(root, roots[i]) {
        if i > 0 {
          LessTransitive(root, roots[0], roots[i]);
        }
      }
    } else {
      LessTotal(root, roots[0]);
      var rest := InsertRoot(roots[1..], root);
      InsertAscends(roots[1..], root);
      forall i | 0 <= i < |rest| ensures Less(roots[0], rest[i]) {
        assert rest[i] in rest;
      }
    }
  }

  /** The groups' roots, sorted from whatever order the map yields them in. */
  method SortRoots(keys: set<string>) returns (roots: seq<string>)
    ensures Ascending(roots) && forall root :: root in roots <==> root in keys
  {
    roots := [];
    var rest := keys;
    while rest != {}
      invariant rest <= keys && Ascending(roots) && forall root :: root in roots <==> root in keys - rest
      decreases |rest|
    {
      var root :| root in rest;
      InsertAscends(roots, root);
      roots := InsertRoot(roots, root);
      rest := rest - {root};
    }
  }

  method PlanGroups(c: Config, domains: seq<string>) returns (planned: seq<string>, roots: seq<string>)
    ensures RootsInOrder(c, domains, roots) && planned == PlanOf(c, domains, roots)
  {
    var groups := AnalyzeDomains(c, domains);
    roots := SortRoots(groups.Keys);
    planned := [];
    for i := 0 to |roots|
      invariant planned == PlanOf(c, domains, roots[..i])
    {
      assert roots[..i + 1][..i] == roots[..i];
      assert roots[i] in roots;
      planned := planned + GroupPlan(c, groups[roots[i]], roots[i], "*." + roots[i] in domains);
    }
    assert roots[..|roots|] == roots;
  }

  /** The list in order holds what the batch plans. */
  lemma PlanOfIsPlanned(c: Config, domains: seq<string>, roots: seq<string>, x: string)
    requires RootsInOrder(c, domains, roots)
    ensures x in PlanOf(c, domains, roots) <==> Planned(c, domains, x)
  {
    PlanOfHolds(c, domains, roots, x);
    if Planned(c, domains, x) {
      var d :| d in domains && x in Contribution(c, domains, KeyOf(c, d));
      assert KeyOf(c, d) in roots;
    }
  }
}
