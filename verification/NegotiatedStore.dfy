/** The negotiated round trip through the in-process store, whatever else the store does in between. */
module NegotiatedStore {
  import opened Text
  import opened CacheEntry
  import opened CacheKeys
  import opened CacheVariant
  import opened Recency
  import opened MemoryStore
  import CacheSafety

  /** What a lookup reads in the store at a given time. */
  function ReadFrom(l: Records, now: int): string -> Option<Entry> {
    (key: string) => Answer(l, key, now)
  }

  /** A read may drop or reorder a record, but changes no answer at that time. */
  lemma ReadChangesNoAnswer(l: Records, key: string, other: string, now: int)
    requires UniqueKeys(l)
    ensures Answer(AfterGet(l, key, now), other, now) == Answer(l, other, now)
  {
    FindRemove(l, key, other);
    if Has(l, key) {
      FindToFront(l, key, other);
    }
    assert Has(l, other) <==> Find(l, other).Some?;
    assert Has(AfterGet(l, key, now), other) <==> Find(AfterGet(l, key, now), other).Some?;
  }

  /** The two reads of a lookup, the second on the store the first one left. */
  function LookupInStore(k: Keying, l: Records, r: Request, now: int): Option<Entry> {
    var primary := k.primary(r);
    var first := Answer(l, primary, now);
    if first.None? || !IsIndex(first.value) then first
    else Answer(AfterGet(l, primary, now), k.variant(primary, first.value.varyOn, r), now)
  }

  lemma LookupReadsOneStore(k: Keying, l: Records, r: Request, now: int)
    requires UniqueKeys(l)
    ensures LookupInStore(k, l, r, now) == Lookup(k, ReadFrom(l, now), r)
  {
    var primary := k.primary(r);
    var first := Answer(l, primary, now);
    if first.Some? && IsIndex(first.value) {
      ReadChangesNoAnswer(l, primary, k.variant(primary, first.value.varyOn, r), now);
    }
  }

  /** An operation that neither stores under a key nor drops what it holds. */
  predicate Spares(l: Records, op: Op, key: string, budget: nat) {
    !Stores(op, key, budget) && (Has(l, key) ==> !Drops(l, op, key, budget))
  }

  /** From a point on, every operation spares the key: it is not evicted, purged, overwritten or read too late. */
  ghost predicate SparedFrom(ops: seq<Op>, from: nat, key: string, budget: nat) {
    from <= |ops| && forall i :: from <= i < |ops| ==> Spares(Run(ops[..i], budget), ops[i], key, budget)
  }

  lemma {:induction false} SparedKeeps(ops: seq<Op>, from: nat, key: string, budget: nat)
    requires SparedFrom(ops, from, key, budget)
    ensures Expected(ops, key, budget) == Expected(ops[..from], key, budget)
    decreases |ops|
  {
    if from == |ops| {
      assert ops[..from] == ops;
    } else {
      var front := ops[..|ops| - 1];
      forall i | from <= i < |front| ensures Spares(Run(front[..i], budget), front[i], key, budget) {
        assert front[..i] == ops[..i];
      }
      SparedKeeps(front, from, key, budget);
      assert front[..from] == ops[..from];
    }
  }

  /** What was stored at a point and spared since is answered while it is servable. */
  lemma SparedIsAnswered(ops: seq<Op>, at: nat, key: string, e: Entry, budget: nat, now: int)
    requires at < |ops| && ops[at] == Set(key, e) && Stores(ops[at], key, budget)
    requires SparedFrom(ops, at + 1, key, budget) && Servable(e, now)
    ensures Answer(Run(ops, budget), key, now) == Some(e)
  {
    SparedKeeps(ops, at + 1, key, budget);
    assert ops[..at + 1][..at] == ops[..at];
    HoldsLastStored(ops, key, budget);
  }

  /**
   * In any history of the store, once a response and its index were written and
   * for as long as both are spared and the response is servable, every request
   * with equal values on its vary fields finds exactly that response, and passes
   * the gate.
   */
  lemma NegotiatedRoundTripInStore(
    h: Hash, options: string -> KeyOptions, maxVariants: nat, rec: Recorded, index: Option<Entry>,
    ops: seq<Op>, variantAt: nat, indexAt: nat, budget: nat, r: Request, now: int)
    requires var k := CacheSafety.FleetKeying(h, options, maxVariants);
             var (here, there) := (k.primary(rec.asker), StorageKey(rec.entry, k.primary(rec.asker)));
             var (published, admitted) := AdmitVariant(k, index, rec.entry, here);
             && BornKeyed(k, rec) && admitted
             && WrittenAt(ops, variantAt, there, rec.entry, budget)
             && (published.Some? ==> WrittenAt(ops, indexAt, here, published.value, budget))
    requires SameResource(options(r.service), rec.asker, r)
    requires SameFields(rec.entry.varyOn, rec.sent, r) && CacheSafety.ReadableTo(rec, r) && Servable(rec.entry, now)
    ensures var k := CacheSafety.FleetKeying(h, options, maxVariants);
            LookupInStore(k, Run(ops, budget), r, now) == Some(rec.entry) && Answers(k, rec.entry, k.primary(r), r)
  {
    var k := CacheSafety.FleetKeying(h, options, maxVariants);
    var (here, there) := (k.primary(rec.asker), StorageKey(rec.entry, k.primary(rec.asker)));
    var published := AdmitVariant(k, index, rec.entry, here).0;
    var l := Run(ops, budget);
    CacheSafety.FleetKeyingSound(h, options, maxVariants);
    CacheSafety.EqualRequestFits(h, options, maxVariants, rec, r);
    PublishedOutlives(k, index, rec.entry, here, now);
    SparedIsAnswered(ops, variantAt, there, rec.entry, budget, now);
    if published.Some? {
      SparedIsAnswered(ops, indexAt, here, published.value, budget, now);
    }
    PublishedIsFound(k, rec, index, ReadFrom(l, now), r);
    RunKept(ops, budget);
    LookupReadsOneStore(k, l, r, now);
  }

  /** Stored by one operation of a history and spared by all that follow. */
  ghost predicate WrittenAt(ops: seq<Op>, at: nat, key: string, e: Entry, budget: nat) {
    at < |ops| && ops[at] == Set(key, e) && Stores(ops[at], key, budget) && SparedFrom(ops, at + 1, key, budget)
  }
}
