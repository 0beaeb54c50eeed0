/** The issuance histories of FailureRuns, with a real configuration's names, wildcards and order split. */
module IssuancePlan {
  import opened Text
  import opened Names
  import opened Grouping
  import opened Zones
  import opened OrderSplit
  import opened SolvableOrders
  import opened DynamicPlan
  import opened Issuer
  import FailureRuns

  function ConfigOf(s: Solvers, prefer: bool, names: set<string>): FailureRuns.Config {
    FailureRuns.Config(names, (d: string) => if prefer then MappedZoneWildcard(s, d) else None)
  }

  /** Names a source may report are never wildcards, and collapse only into wildcards. */
  lemma ConfigSound(s: Solvers, prefer: bool, names: set<string>)
    requires forall d :: d in names ==> ValidDynamicDomain(d)
    ensures FailureRuns.Sound(ConfigOf(s, prefer, names))
  {
    var c := ConfigOf(s, prefer, names);
    forall d | d in names
      ensures !IsWildcard(d) && (c.mapped(d).Some? ==> IsWildcard(c.mapped(d).value))
    {
      LabelsShape(d);
      NotStarred(d);
      SameTail(ZoneOf(s.selection, d), "");
    }
  }

  lemma NotStarred(d: string)
    requires d != "" && (LabelChar(d[0]) || d[0] == '.')
    ensures !IsWildcard(d)
  {
    assert |d| >= 2 ==> d[0] == d[..2][0];
  }

  /** A history's planned identifier is the planner's, except that a retried request is ordered as itself. */
  lemma PlannedAsIsPlanned(s: Solvers, prefer: bool, names: set<string>, held: set<string>, r: Request)
    ensures FailureRuns.PlannedAs(ConfigOf(s, prefer, names), held)(r) ==
            if r.retried then r.domain else PlanIdentifier(s, prefer, d => d in held, r.domain)
  {
  }

  /** The real split of any identifiers is one a dispatch may use: nothing repeated, nothing lost. */
  lemma SplitUsable(s: Solvers, identifiers: seq<string>)
    requires NoneTwice(identifiers)
    ensures NoneTwice(Flatten(Orders(s, identifiers)))
    ensures forall x :: x in Flatten(Orders(s, identifiers)) <==> x in identifiers
  {
    var flat := Flatten(Orders(s, identifiers));
    SplitPermutes(NamingOf(s), HasZones(s), identifiers);
    PermutedNoneTwice(identifiers, flat);
  }

  lemma PermutedNoneTwice(a: seq<string>, b: seq<string>)
    requires NoneTwice(a) && multiset(a) == multiset(b)
    ensures NoneTwice(b) && forall x :: x in b <==> x in a
  {
    forall x ensures x in b <==> x in a {
      assert x in a <==> x in multiset(a);
      assert x in b <==> x in multiset(b);
    }
    forall i, j | 0 <= i < j < |b| ensures b[i] != b[j] {
      assert b[i] in a;
      var k :| 0 <= k < |a| && a[k] == b[i];
      Once(a, k);
      Twice(b, i, j);
    }
  }

  lemma Once(a: seq<string>, k: nat)
    requires NoneTwice(a) && k < |a|
    ensures multiset(a)[a[k]] == 1
  {
    var before, after := a[..k], a[k + 1..];
    assert a == before + [a[k]] + after;
    assert a[k] !in before && a[k] !in after;
    assert multiset(before)[a[k]] == 0 && multiset(after)[a[k]] == 0;
  }

  lemma Twice(b: seq<string>, i: nat, j: nat)
    requires i < j < |b|
    ensures b[i] == b[j] ==> multiset(b)[b[i]] >= 2
  {
    assert b == b[..j] + [b[j]] + b[j + 1..];
    assert b[i] in b[..j];
    assert b[i] in multiset(b[..j]);
  }
}
