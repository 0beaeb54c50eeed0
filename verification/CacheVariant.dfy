/**
 * Content negotiation in two steps: an index under the primary key lists the
 * header fields that matter, and their values lead to the variant. Here too is
 * the gate that every answer from the cache passes.
 */
module CacheVariant {
  import opened Text
  import opened CacheEntry
  import opened CacheKeys

  const INDEX_MIN_TTL: nat := 60

  /** How a fleet derives keys. The gate and the protocol use keys only through this. */
  datatype Keying = Keying(
    primary: Request -> string,
    variant: (string, seq<string>, Request) -> string,
    readable: (Entry, Request) -> bool,
    digest: string -> string,
    maxVariants: nat
  )

  /** A variant key extends its resource's key, and is never itself a resource's key. */
  ghost predicate SoundKeying(k: Keying) {
    && (forall p, r :: k.variant(p, [], r) == p)
    && (forall p, v, r :: v != [] ==> |k.variant(p, v, r)| == |p| + VARIANT_DIGEST_LENGTH && k.variant(p, v, r)[..|p|] == p)
    && (forall q, r, v, s :: v != [] ==> k.primary(q) != k.variant(k.primary(r), v, s))
  }

  /** Where an entry belongs. */
  function StorageKey(e: Entry, primary: string): string {
    if e.variantKey == "" then primary else e.variantKey
  }

  /** The secondary-key match of section 4.1 of RFC 9111, computed from the fields the entry itself lists. */
  predicate Answers(k: Keying, e: Entry, primary: string, r: Request) {
    IsResponse(e) && k.variant(primary, e.varyOn, r) == StorageKey(e, primary) && k.readable(e, r)
  }

  /** A response recorded while answering `asker`, from the request `sent` upstream. */
  datatype Recorded = Recorded(asker: Request, sent: Request, entry: Entry)

  /** A recorded entry carries the key it was computed for. */
  predicate BornKeyed(k: Keying, rec: Recorded) {
    && IsResponse(rec.entry)
    && rec.entry.variantKey == (if rec.entry.varyOn == [] then "" else k.variant(k.primary(rec.asker), rec.entry.varyOn, rec.sent))
  }

  /** The response is this request's: one resource, equal keys on the response's own vary list, a readable coding. */
  predicate Fits(k: Keying, rec: Recorded, r: Request) {
    && k.primary(rec.asker) == k.primary(r)
    && k.variant(k.primary(r), rec.entry.varyOn, rec.sent) == k.variant(k.primary(r), rec.entry.varyOn, r)
    && k.readable(rec.entry, r)
  }

  /** A record read at a key this request looked at, and passing the gate, is this request's. */
  lemma GateAfterLookup(k: Keying, rec: Recorded, key: string, r: Request, follow: seq<string>)
    requires SoundKeying(k) && BornKeyed(k, rec)
    requires key == k.primary(r) || (follow != [] && key == k.variant(k.primary(r), follow, r))
    requires key == StorageKey(rec.entry, k.primary(rec.asker))
    requires Answers(k, rec.entry, k.primary(r), r)
    ensures Fits(k, rec, r)
  {
    var v := rec.entry.varyOn;
    if v == [] {
      assert key == k.primary(rec.asker);
      assert k.variant(k.primary(r), v, rec.sent) == k.primary(r) == k.variant(k.primary(r), v, r);
    } else {
      var recorded := k.variant(k.primary(rec.asker), v, rec.sent);
      assert |recorded| == |k.primary(rec.asker)| + VARIANT_DIGEST_LENGTH;
      var derived := k.variant(k.primary(r), v, r);
      assert recorded == rec.entry.variantKey == derived;
      assert k.primary(rec.asker) == recorded[..|k.primary(rec.asker)|];
      assert k.primary(r) == derived[..|k.primary(r)|];
    }
  }

  /** A record handed over under this request's own resource, and passing the gate, is this request's. */
  lemma GateAfterHandover(k: Keying, rec: Recorded, r: Request)
    requires SoundKeying(k) && BornKeyed(k, rec)
    requires k.primary(rec.asker) == k.primary(r)
    requires Answers(k, rec.entry, k.primary(r), r)
    ensures Fits(k, rec, r)
  {
    var v := rec.entry.varyOn;
    if v == [] {
      assert k.variant(k.primary(r), v, rec.sent) == k.primary(r) == k.variant(k.primary(r), v, r);
    } else {
      assert |k.variant(k.primary(rec.asker), v, rec.sent)| == |k.primary(rec.asker)| + VARIANT_DIGEST_LENGTH;
    }
  }

  // ---- Indexes ----

  function NewVariantIndex(e: Entry, variants: seq<string>): Entry {
    Entry(e.service, e.path, e.varyOn, "", variants, 0, [], "", e.storedAt, 0,
          if e.freshFor + e.staleWhileRevalidate > INDEX_MIN_TTL then e.freshFor + e.staleWhileRevalidate else INDEX_MIN_TTL,
          0)
  }

  /** The index a new variant is published with, and whether there is room for it. */
  function AdmitVariant(k: Keying, index: Option<Entry>, e: Entry, primary: string): (Option<Entry>, bool) {
    if e.varyOn == [] then (None, true)
    else
      var digest := k.digest(StorageKey(e, primary));
      if index.None? || index.value.varyOn != e.varyOn then (Some(NewVariantIndex(e, [digest])), true)
      else if digest in index.value.variants then (Some(NewVariantIndex(e, index.value.variants)), true)
      else if |index.value.variants| >= k.maxVariants then (None, false)
      else (Some(NewVariantIndex(e, index.value.variants + [digest])), true)
  }

  /** The index is there for as long as the variant it was published with is of any use, and for a minute at least. */
  lemma IndexOutlivesVariant(e: Entry, variants: seq<string>, now: int)
    ensures Servable(e, now) ==> Servable(NewVariantIndex(e, variants), now)
    ensures now >= e.storedAt ==>
              (Servable(NewVariantIndex(e, variants), now) <==> now - e.storedAt < 60 || now - e.storedAt < e.freshFor + e.staleWhileRevalidate)
  {
  }

  /** The variants an index already lists under the same fields. */
  function KnownVariants(index: Option<Entry>, e: Entry): seq<string> {
    if index.Some? && index.value.varyOn == e.varyOn then index.value.variants else []
  }

  /**
   * A variant is turned away exactly when it is new under the fields the index
   * lists and the index is full. Otherwise its index points at its fields, keeps
   * the variants known under them, records this one's digest and respects the cap;
   * a response without a vary list publishes none.
   */
  lemma AdmittedIndex(k: Keying, index: Option<Entry>, e: Entry, primary: string)
    requires k.maxVariants >= 1
    ensures var (published, admitted) := AdmitVariant(k, index, e, primary);
            var digest, known := k.digest(StorageKey(e, primary)), KnownVariants(index, e);
            && (!admitted <==> e.varyOn != [] && digest !in known && |known| >= k.maxVariants)
            && (published.Some? <==> admitted && e.varyOn != [])
            && (published.Some? ==>
                  && IsIndex(published.value) && published.value.varyOn == e.varyOn
                  && published.value.service == e.service && published.value.path == e.path && published.value.storedAt == e.storedAt
                  && (forall x :: x in published.value.variants <==> x in known || x == digest)
                  && (|known| <= k.maxVariants ==> |published.value.variants| <= k.maxVariants))
  {
  }

  // ---- Storing, then finding ----

  /** Variant first, then its index. */
  function StoreVariant(k: Keying, store: map<string, Entry>, index: Option<Entry>, e: Entry, primary: string): map<string, Entry> {
    var (published, admitted) := AdmitVariant(k, index, e, primary);
    if !admitted then store
    else
      var written := store[StorageKey(e, primary) := e];
      if published.Some? then written[primary := published.value] else written
  }

  /** What a lookup reads at a key: a record past its last use reads as a miss. */
  function ReadAt(store: map<string, Entry>, now: int): string -> Option<Entry> {
    (key: string) => if key in store && Servable(store[key], now) then Some(store[key]) else None
  }

  /** The lookup a request makes: its own key, then the variant an index points it to. */
  function Lookup(k: Keying, read: string -> Option<Entry>, r: Request): Option<Entry> {
    var primary := k.primary(r);
    var first := read(primary);
    if first.None? || !IsIndex(first.value) then first
    else read(k.variant(primary, first.value.varyOn, r))
  }

  /** Wherever the published records can still be read, an equal request finds exactly the stored response. */
  lemma PublishedIsFound(k: Keying, rec: Recorded, index: Option<Entry>, read: string -> Option<Entry>, r: Request)
    requires SoundKeying(k) && BornKeyed(k, rec) && Fits(k, rec, r)
    requires AdmitVariant(k, index, rec.entry, k.primary(rec.asker)).1
    requires var published := AdmitVariant(k, index, rec.entry, k.primary(rec.asker)).0;
             && read(StorageKey(rec.entry, k.primary(rec.asker))) == Some(rec.entry)
             && (published.Some? ==> read(k.primary(rec.asker)) == published)
    ensures Lookup(k, read, r) == Some(rec.entry)
    ensures Answers(k, rec.entry, k.primary(r), r)
  {
    var v := rec.entry.varyOn;
    if v == [] {
      assert k.variant(k.primary(r), v, r) == k.primary(r);
    } else {
      assert |k.variant(k.primary(rec.asker), v, rec.sent)| == |k.primary(rec.asker)| + VARIANT_DIGEST_LENGTH;
    }
  }

  /** The published index is readable for as long as the response is. */
  lemma PublishedOutlives(k: Keying, index: Option<Entry>, e: Entry, primary: string, now: int)
    requires Servable(e, now)
    ensures var published := AdmitVariant(k, index, e, primary).0;
            published.Some? ==> Servable(published.value, now)
  {
    var published := AdmitVariant(k, index, e, primary).0;
    if published.Some? {
      IndexOutlivesVariant(e, published.value.variants, now);
    }
  }

  /**
   * What was stored is what an equal request finds, for as long as the response
   * is servable and neither record has been dropped or overwritten.
   */
  lemma StoredIsFound(k: Keying, rec: Recorded, index: Option<Entry>, before: map<string, Entry>, after: map<string, Entry>, r: Request, now: int)
    requires SoundKeying(k) && BornKeyed(k, rec) && Fits(k, rec, r)
    requires AdmitVariant(k, index, rec.entry, k.primary(rec.asker)).1 && Servable(rec.entry, now)
    requires var stored := StoreVariant(k, before, index, rec.entry, k.primary(rec.asker));
             var (here, there) := (k.primary(rec.asker), StorageKey(rec.entry, k.primary(rec.asker)));
             here in after && after[here] == stored[here] && there in after && after[there] == stored[there]
    ensures Lookup(k, ReadAt(after, now), r) == Some(rec.entry)
    ensures Answers(k, rec.entry, k.primary(r), r)
  {
    PublishedOutlives(k, index, rec.entry, k.primary(rec.asker), now);
    if rec.entry.varyOn != [] {
      assert |k.variant(k.primary(rec.asker), rec.entry.varyOn, rec.sent)| == |k.primary(rec.asker)| + VARIANT_DIGEST_LENGTH;
    }
    PublishedIsFound(k, rec, index, ReadAt(after, now), r);
  }
}
