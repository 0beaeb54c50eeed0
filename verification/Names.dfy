/**
 * Domain names as certificates see them: what a wildcard covers, and the two
 * normal forms names are compared in.
 */
module Names {
  import opened Text

  predicate IsWildcard(domain: string) {
    HasPrefix(domain, "*.")
  }

  /** The wildcard one label above a name, if there is a label and something after it. */
  function WildcardParent(domain: string): Option<string> {
    var dot := IndexOf(domain, '.');
    if dot == 0 || dot >= |domain| - 1 then None else Some("*." + domain[dot + 1..])
  }

  predicate MatchesWildcard(pattern: string, domain: string) {
    IsWildcard(pattern) && WildcardParent(domain) == Some(pattern)
  }

  predicate IdentifiersCover(identifiers: seq<string>, domain: string) {
    exists i :: 0 <= i < |identifiers| && (identifiers[i] == domain || MatchesWildcard(identifiers[i], domain))
  }

  /** Lower case, no surrounding space, no trailing dot. */
  function NormalizeDomainName(domain: string): string {
    ToLower(TrimSuffix(TrimSpace(domain), "."))
  }

  /** The form zones are configured in; unlike NormalizeDomainName it drops a wildcard prefix. */
  function NormalizeZone(zone: string): string {
    TrimSuffix(TrimPrefix(ToLower(TrimSpace(zone)), "*."), ".")
  }

  /** The zone itself, or any name under it. */
  predicate ZoneContains(zone: string, domain: string) {
    var candidate := NormalizeDomainName(domain);
    candidate == zone || HasSuffix(candidate, "." + zone)
  }

  /** A wildcard covers a name exactly when the name is one non-empty label followed by the wildcard's tail. */
  lemma MatchesWildcardIff(pattern: string, domain: string)
    ensures MatchesWildcard(pattern, domain) <==>
            exists part: string :: part != "" && '.' !in part && |pattern| > 2 && pattern[..2] == "*."
                                    && domain == part + pattern[1..]
  {
    var dot := IndexOf(domain, '.');
    if MatchesWildcard(pattern, domain) {
      var part := domain[..dot];
      assert domain == part + pattern[1..];
    }
    if part: string :| part != "" && '.' !in part && |pattern| > 2 && pattern[..2] == "*."
                        && domain == part + pattern[1..] {
      assert domain[|part|] == '.' && domain[..|part|] == part;
      IndexOfIs(domain, '.', |part|);
      assert "*." + domain[|part| + 1..] == pattern;
    }
  }

  lemma CoverMonotone(identifiers: seq<string>, more: seq<string>, domain: string)
    requires IdentifiersCover(identifiers, domain)
    requires forall x :: x in identifiers ==> x in more
    ensures IdentifiersCover(more, domain)
  {
    var i :| 0 <= i < |identifiers| && (identifiers[i] == domain || MatchesWildcard(identifiers[i], domain));
    assert identifiers[i] in identifiers;
  }

  /** Text with no space or dot to trim at either end. */
  predicate Unpadded(s: string) {
    s != "" && !IsSpace(s[0]) && !IsSpace(s[|s| - 1]) && s[|s| - 1] != '.'
  }

  lemma UntrimmedSpace(s: string)
    requires Unpadded(s)
    ensures TrimSpace(s) == s
  {
  }

  lemma NoTrailingDot(s: string)
    requires s != "" && s[|s| - 1] != '.'
    ensures TrimSuffix(s, ".") == s
  {
    assert s[|s| - 1..] == [s[|s| - 1]];
  }

  /** Such a name only loses its case. */
  lemma UnpaddedName(d: string)
    requires Unpadded(d)
    ensures NormalizeDomainName(d) == ToLower(d)
  {
    UntrimmedSpace(d);
    NoTrailingDot(d);
  }

  /** And, as a zone, its wildcard prefix. */
  lemma UnpaddedZone(d: string)
    requires Unpadded(d) && (IsWildcard(d) ==> |d| > 2)
    ensures NormalizeZone(d) == if IsWildcard(d) then ToLower(d)[2..] else ToLower(d)
  {
    UntrimmedSpace(d);
    var lower := ToLower(d);
    LowerWildcard(d);
    var rest := TrimPrefix(lower, "*.");
    assert rest[|rest| - 1] == lower[|lower| - 1] != '.';
    NoTrailingDot(rest);
  }

  lemma LowerWildcard(d: string)
    ensures IsWildcard(ToLower(d)) <==> IsWildcard(d)
  {
    var lower := ToLower(d);
    if |d| >= 2 {
      assert d[..2] == [d[0], d[1]] && lower[..2] == [lower[0], lower[1]];
      assert "*." == ['*', '.'];
    }
  }
}
