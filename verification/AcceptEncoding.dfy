/** The normal form of Accept-Encoding that cache keys carry: the keyable codings a client accepts, joined. */
module AcceptEncoding {
  import opened Text

  /** Accept-Encoding as parsed: the quality of each named coding, and of the wildcard when one was sent. */
  datatype Accept = Accept(named: map<string, real>, wildcard: Option<real>)

  const KEYABLE_ENCODINGS: seq<string> := ["br", "deflate", "gzip", "identity", "zstd"]

  /** Whether a coding belongs in the key of a client with this Accept-Encoding. */
  predicate Usable(accept: Accept, coding: string) {
    if coding in accept.named then accept.named[coding] > 0.0
    else coding == "identity" || (accept.wildcard.Some? && accept.wildcard.value > 0.0)
  }

  function UsableAmong(accept: Accept, codings: seq<string>): seq<string> {
    if codings == [] then []
    else (if Usable(accept, codings[0]) then [codings[0]] else []) + UsableAmong(accept, codings[1..])
  }

  function Join(parts: seq<string>): string {
    if parts == [] then "" else if |parts| == 1 then parts[0] else parts[0] + "," + Join(parts[1..])
  }

  function NormalizeAcceptEncoding(accept: Accept): string {
    Join(UsableAmong(accept, KEYABLE_ENCODINGS))
  }

  // ---- Two clients with one normal form ----

  predicate Word(s: string) {
    s != "" && ',' !in s
  }

  predicate Words(parts: seq<string>) {
    forall i :: 0 <= i < |parts| ==> Word(parts[i])
  }

  lemma FirstWord(parts: seq<string>)
    requires parts != [] && Words(parts)
    ensures IndexOf(Join(parts), ',') == |parts[0]|
    ensures Join(parts)[..|parts[0]|] == parts[0]
    ensures |parts| > 1 <==> |Join(parts)| > |parts[0]|
    ensures |parts| > 1 ==> Join(parts)[|parts[0]| + 1..] == Join(parts[1..])
  {
    if |parts| > 1 {
      assert Join(parts)[|parts[0]|] == ',';
      assert Join(parts)[..|parts[0]|] == parts[0];
      IndexOfIs(Join(parts), ',', |parts[0]|);
    }
  }

  lemma {:induction false} JoinInjective(a: seq<string>, b: seq<string>)
    requires Words(a) && Words(b) && Join(a) == Join(b)
    ensures a == b
  {
    if a == [] {
      if b != [] { FirstWord(b); }
    } else if b == [] {
      FirstWord(a);
    } else {
      FirstWord(a);
      FirstWord(b);
      if |a| > 1 {
        JoinInjective(a[1..], b[1..]);
        assert a == [a[0]] + a[1..] && b == [b[0]] + b[1..];
      }
    }
  }

  lemma {:induction false} UsableAmongFacts(accept: Accept, codings: seq<string>)
    requires Words(codings)
    ensures Words(UsableAmong(accept, codings))
    ensures forall c :: c in UsableAmong(accept, codings) <==> c in codings && Usable(accept, c)
  {
    if codings != [] {
      UsableAmongFacts(accept, codings[1..]);
      assert codings == [codings[0]] + codings[1..];
    }
  }

  lemma {:induction false} UsableAmongSame(a: Accept, b: Accept, codings: seq<string>)
    requires forall c :: c in codings ==> Usable(a, c) == Usable(b, c)
    ensures UsableAmong(a, codings) == UsableAmong(b, codings)
  {
    if codings != [] {
      assert codings[0] in codings;
      assert forall c :: c in codings[1..] ==> c in codings;
      UsableAmongSame(a, b, codings[1..]);
    }
  }

  /** Two clients share a key exactly when they accept the same keyable codings, however they wrote it. */
  lemma SameEncodingKeyIff(a: Accept, b: Accept)
    ensures NormalizeAcceptEncoding(a) == NormalizeAcceptEncoding(b)
            <==> (forall c :: c in KEYABLE_ENCODINGS ==> Usable(a, c) == Usable(b, c))
  {
    assert Words(KEYABLE_ENCODINGS);
    UsableAmongFacts(a, KEYABLE_ENCODINGS);
    UsableAmongFacts(b, KEYABLE_ENCODINGS);
    if NormalizeAcceptEncoding(a) == NormalizeAcceptEncoding(b) {
      JoinInjective(UsableAmong(a, KEYABLE_ENCODINGS), UsableAmong(b, KEYABLE_ENCODINGS));
    }
    if forall c :: c in KEYABLE_ENCODINGS ==> Usable(a, c) == Usable(b, c) {
      UsableAmongSame(a, b, KEYABLE_ENCODINGS);
    }
  }
}
