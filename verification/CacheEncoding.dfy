/** Which clients can read which content codings, and what the normalized Accept-Encoding key says about it. */
module CacheEncoding {
  import opened Text
  import opened CacheEntry
  import opened CacheKeys
  import opened AcceptEncoding

  /** The code's own test of whether a client may be handed a coding. */
  predicate ClientAccepts(accept: Accept, contentEncoding: string) {
    var coding := ToLower(TrimSpace(contentEncoding));
    if coding == "" || coding == "identity" then true
    else if coding in accept.named then accept.named[coding] > 0.0
    else accept.wildcard.Some? && accept.wildcard.value > 0.0
  }

  predicate Readable(e: Entry, r: Request) {
    ClientAccepts(r.accept, FieldValue(e.header, "Content-Encoding"))
  }

  // ---- Acceptance as section 12.5.3 of RFC 9110 defines it ----

  predicate Uncoded(contentEncoding: string) {
    var coding := ToLower(TrimSpace(contentEncoding));
    coding == "" || coding == "identity"
  }

  /** "identity;q=0", or "*;q=0" with no entry for identity. */
  predicate RefusesIdentity(accept: Accept) {
    if "identity" in accept.named then accept.named["identity"] <= 0.0
    else accept.wildcard.Some? && accept.wildcard.value <= 0.0
  }

  /** What the field lists for a coding: its own quality, else the wildcard's. */
  predicate Listed(accept: Accept, coding: string) {
    if coding in accept.named then accept.named[coding] > 0.0
    else accept.wildcard.Some? && accept.wildcard.value > 0.0
  }

  /**
   * Without the field anything is acceptable; an unencoded body is, unless it is
   * excluded; any other coding must be listed with a quality above zero.
   */
  predicate Acceptable(field: Option<Accept>, contentEncoding: string) {
    field.Some? ==>
      if Uncoded(contentEncoding) then !RefusesIdentity(field.value)
      else Listed(field.value, ToLower(TrimSpace(contentEncoding)))
  }

  /** The field as the client sent it, or nothing. */
  function AcceptField(r: Request): Option<Accept> {
    if ACCEPT_ENCODING in r.headers then Some(r.accept) else None
  }

  /** For a client that sent the field, the code and the RFC part on an unencoded body the client refused, and there only. */
  lemma AcceptsAgreesIff(accept: Accept, contentEncoding: string)
    ensures ClientAccepts(accept, contentEncoding) == Acceptable(Some(accept), contentEncoding)
            <==> !(Uncoded(contentEncoding) && RefusesIdentity(accept))
    ensures ClientAccepts(accept, contentEncoding) ==>
              Acceptable(Some(accept), contentEncoding) || (Uncoded(contentEncoding) && RefusesIdentity(accept))
  {
  }

  /** For one that sent none, read as an empty field, the code is the stricter: it hands out unencoded bodies only. */
  lemma AbsentFieldAgreesIff(contentEncoding: string)
    ensures Acceptable(None, contentEncoding)
    ensures ClientAccepts(Accept(map[], None), contentEncoding) <==> Uncoded(contentEncoding)
  {
  }

  /** The failing family is inhabited, both ways of writing it. */
  lemma RefusedIdentityIsServed()
    ensures var named := Accept(map["identity" := 0.0], None);
            ClientAccepts(named, "") && !Acceptable(Some(named), "")
    ensures var starred := Accept(map[], Some(0.0));
            ClientAccepts(starred, "") && !Acceptable(Some(starred), "")
  {
    assert ToLower(TrimSpace("")) == "";
  }

  /** The key's reading parts from the RFC on one coding only: identity refused through the wildcard. */
  lemma UsableAgreesIff(accept: Accept, coding: string)
    requires coding in KEYABLE_ENCODINGS
    ensures Usable(accept, coding) == Acceptable(Some(accept), coding)
            <==> !(coding == "identity" && coding !in accept.named && RefusesIdentity(accept))
  {
    KeyableIsPlain(coding);
  }

  lemma KeyableIsPlain(coding: string)
    requires coding in KEYABLE_ENCODINGS
    ensures ToLower(TrimSpace(coding)) == coding && coding != ""
  {
    assert coding != "" && !IsSpace(coding[0]) && !IsSpace(coding[|coding| - 1]);
    assert TrimSpace(coding) == coding;
    assert forall i :: 0 <= i < |coding| ==> LowerChar(coding[i]) == coding[i];
    assert ToLower(coding) == coding;
  }

  // ---- What a shared key says ----

  /** Whether the key of an Accept-Encoding speaks for a body's coding. */
  predicate KeyableCoding(contentEncoding: string) {
    ToLower(TrimSpace(contentEncoding)) in KEYABLE_ENCODINGS
  }

  /** So a body keyed on Accept-Encoding is readable to every client that shares the key, or to none. */
  lemma SharedKeySharedReading(a: Accept, b: Accept, contentEncoding: string)
    requires NormalizeAcceptEncoding(a) == NormalizeAcceptEncoding(b)
    requires contentEncoding == "" || KeyableCoding(contentEncoding)
    ensures ClientAccepts(a, contentEncoding) == ClientAccepts(b, contentEncoding)
  {
    SameEncodingKeyIff(a, b);
    if contentEncoding != "" {
      var coding := ToLower(TrimSpace(contentEncoding));
      assert Usable(a, coding) == Usable(b, coding);
    }
  }
}
