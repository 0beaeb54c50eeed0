/** The in-process store: a byte budget, least recently used out first. */
module MemoryStore {
  import opened Text
  import opened CacheEntry
  import opened Recency

  type Records = seq<Item<Entry>>

  function RecordOf(key: string, e: Entry): Item<Entry> {
    Item(key, e.service, e.path, Size(e), e)
  }

  // ---- What each operation does to the plain list ----

  function AfterGet(l: Records, key: string, now: int): Records {
    if !Has(l, key) then l
    else if !Servable(l[Position(l, key)].value, now) then RemoveKey(l, key)
    else ToFront(l, key)
  }

  function Answer(l: Records, key: string, now: int): Option<Entry> {
    if Has(l, key) && Servable(l[Position(l, key)].value, now) then Some(l[Position(l, key)].value) else None
  }

  function AfterSet(l: Records, key: string, e: Entry, budget: nat): Records {
    if Ttl(e) == 0 then l
    else if Size(e) > budget then RemoveKey(l, key)
    else Fit([RecordOf(key, e)] + RemoveKey(l, key), budget)
  }

  /** The records a set pushes out to make room, most recent first. */
  function Displaced(l: Records, key: string, e: Entry, budget: nat): Records {
    if Ttl(e) == 0 || Size(e) > budget then [] else
      var pushed := [RecordOf(key, e)] + RemoveKey(l, key);
      var kept := |Fit(pushed, budget)|;
      if kept <= |pushed| then pushed[kept..] else []
  }

  /** How many of them could still have been served without a revalidation. */
  function FreshAmong(l: Records, now: int): (n: nat)
    ensures n <= |l|
  {
    if l == [] then 0 else FreshAmong(l[..|l| - 1], now) + if Fresh(l[|l| - 1].value, now) then 1 else 0
  }

  datatype Op = Get(key: string, now: int) | Set(key: string, entry: Entry) | Purge(service: string, prefix: string) | Close

  function After(l: Records, op: Op, budget: nat): Records {
    match op
    case Get(key, now) => AfterGet(l, key, now)
    case Set(key, e) => AfterSet(l, key, e, budget)
    case Purge(service, prefix) => Unpurged(l, service, prefix)
    case Close => []
  }

  function Run(ops: seq<Op>, budget: nat): Records {
    if ops == [] then [] else After(Run(ops[..|ops| - 1], budget), ops[|ops| - 1], budget)
  }

  // ---- The byte budget, over every run ----

  ghost predicate Kept(l: Records, budget: nat) {
    UniqueKeys(l) && Total(l) <= budget
  }

  lemma SetKept(l: Records, key: string, e: Entry, budget: nat)
    requires Kept(l, budget)
    ensures Kept(AfterSet(l, key, e, budget), budget)
  {
    RemoveKeyFacts(l, key);
    if Ttl(e) > 0 && Size(e) <= budget {
      var pushed := [RecordOf(key, e)] + RemoveKey(l, key);
      PushUnique(RecordOf(key, e), RemoveKey(l, key));
      FitLaw(pushed, budget);
      FindFit(pushed, budget, key);
    }
  }

  lemma StepKept(l: Records, op: Op, budget: nat)
    requires Kept(l, budget)
    ensures Kept(After(l, op, budget), budget)
  {
    match op
    case Get(key, now) =>
      RemoveKeyFacts(l, key);
      if Has(l, key) { ToFrontFacts(l, Position(l, key)); }
    case Set(key, e) => SetKept(l, key, e, budget);
    case Purge(service, prefix) => UnpurgedFacts(l, service, prefix);
    case Close =>
  }

  /** No sequence of operations ever leaves the store over budget or holding a key twice. */
  lemma {:induction false} RunKept(ops: seq<Op>, budget: nat)
    ensures Kept(Run(ops, budget), budget)
  {
    if ops != [] {
      RunKept(ops[..|ops| - 1], budget);
      StepKept(Run(ops[..|ops| - 1], budget), ops[|ops| - 1], budget);
    }
  }

  /** A new entry that fits is kept, at the front, whatever has to go to make room. */
  lemma NewEntryStays(l: Records, key: string, e: Entry, budget: nat)
    requires Ttl(e) > 0 && Size(e) <= budget
    ensures |AfterSet(l, key, e, budget)| > 0 && AfterSet(l, key, e, budget)[0] == RecordOf(key, e)
  {
    FrontFits(RecordOf(key, e), RemoveKey(l, key), budget);
  }

  // ---- What is counted ----

  /** What a set counts as evicted is what it drops besides the key it sets: each record once. */
  lemma DisplacedAre(l: Records, key: string, e: Entry, budget: nat, x: Item<Entry>)
    requires Kept(l, budget) && Ttl(e) > 0
    ensures UniqueKeys(Displaced(l, key, e, budget))
    ensures x in Displaced(l, key, e, budget) <==> x in l && x.key != key && x !in AfterSet(l, key, e, budget)
  {
    RemoveKeyFacts(l, key);
    if Size(e) <= budget {
      var r := RecordOf(key, e);
      var pushed := [r] + RemoveKey(l, key);
      PushUnique(r, RemoveKey(l, key));
      FitLaw(pushed, budget);
      NewEntryStays(l, key, e, budget);
      SplitApart(pushed, |Fit(pushed, budget)|, x);
    }
  }

  /** And what it counts as fresh among them are those of an age below their fresh time. */
  lemma {:induction false} FreshAmongCounts(l: Records, now: int)
    ensures FreshAmong(l, now) == |set i | 0 <= i < |l| && Young(l[i], now)|
  {
    var all := set i | 0 <= i < |l| && Young(l[i], now);
    if l != [] {
      var n := |l| - 1;
      FreshAmongCounts(l[..n], now);
      var before := set i | 0 <= i < n && Young(l[..n][i], now);
      forall i ensures i in all <==> i in before || (Young(l[n], now) && i == n) {
        assert 0 <= i < n ==> l[..n][i] == l[i];
      }
      CountOneMore(before, all, n, Young(l[n], now));
    }
  }

  predicate Young(x: Item<Entry>, now: int) {
    x.value.initialAge + (if now < x.value.storedAt then 0 else now - x.value.storedAt) < x.value.freshFor
  }

  // ---- What Get returns, over every run ----

  function ValueAt(l: Records, key: string): Option<Entry> {
    var found := Find(l, key);
    if found.Some? then Some(found.value.value) else None
  }

  predicate Stores(op: Op, key: string, budget: nat) {
    op.Set? && op.key == key && Ttl(op.entry) > 0 && Size(op.entry) <= budget
  }

  /** The four ways a stored record goes: unservable when asked for, oversized, evicted, or purged. */
  predicate Drops(l: Records, op: Op, key: string, budget: nat)
    requires Has(l, key)
  {
    match op
    case Get(k, now) => k == key && !Servable(l[Position(l, key)].value, now)
    case Set(k, e) =>
      Ttl(e) > 0
      && if k == key then Size(e) > budget
         else Size(e) <= budget && Evicted([RecordOf(k, e)] + RemoveKey(l, k), key, budget)
    case Purge(service, prefix) => Purged(l[Position(l, key)], service, prefix)
    case Close => true
  }

  /** The plain reading of a key's history: the last value stored, unless something dropped it since. */
  function Expected(ops: seq<Op>, key: string, budget: nat): Option<Entry> {
    if ops == [] then None else
      var before := ops[..|ops| - 1];
      var op := ops[|ops| - 1];
      var l := Run(before, budget);
      if Stores(op, key, budget) then Some(op.entry)
      else if Has(l, key) && Drops(l, op, key, budget) then None
      else Expected(before, key, budget)
  }

  lemma SetStep(l: Records, key: string, e: Entry, other: string, budget: nat)
    requires Kept(l, budget) && Ttl(e) > 0 && Size(e) <= budget
    ensures ValueAt(AfterSet(l, key, e, budget), other)
            == if key == other then Some(e)
               else if Evicted([RecordOf(key, e)] + RemoveKey(l, key), other, budget) then None
               else ValueAt(l, other)
  {
    var rest := RemoveKey(l, key);
    var pushed := [RecordOf(key, e)] + rest;
    RemoveKeyFacts(l, key);
    PushUnique(RecordOf(key, e), rest);
    NewEntryStays(l, key, e, budget);
    FindRemove(l, key, other);
    FindPush(RecordOf(key, e), rest, other);
    FindFit(pushed, budget, other);
  }

  lemma StepExpected(l: Records, op: Op, key: string, budget: nat)
    requires Kept(l, budget)
    ensures ValueAt(After(l, op, budget), key)
            == if Stores(op, key, budget) then Some(op.entry)
               else if Has(l, key) && Drops(l, op, key, budget) then None
               else ValueAt(l, key)
  {
    match op
    case Get(k, now) =>
      FindRemove(l, k, key);
      if Has(l, k) { FindToFront(l, k, key); }
    case Set(k, e) =>
      FindRemove(l, k, key);
      if Ttl(e) > 0 && Size(e) <= budget {
        SetStep(l, k, e, key, budget);
        FindPush(RecordOf(k, e), RemoveKey(l, k), key);
      }
    case Purge(service, prefix) => FindUnpurged(l, service, prefix, key);
    case Close =>
  }

  /** Over every run, what a key holds is the last value stored under it, unless it was dropped since. */
  lemma {:induction false} HoldsLastStored(ops: seq<Op>, key: string, budget: nat)
    ensures ValueAt(Run(ops, budget), key) == Expected(ops, key, budget)
  {
    if ops != [] {
      HoldsLastStored(ops[..|ops| - 1], key, budget);
      RunKept(ops[..|ops| - 1], budget);
      StepExpected(Run(ops[..|ops| - 1], budget), ops[|ops| - 1], key, budget);
    }
  }

  // ---- Least recently used out first, over every run ----

  /** An operation uses a key when it stores under it or is answered from it. */
  predicate Uses(l: Records, op: Op, key: string, budget: nat) {
    || Stores(op, key, budget)
    || (op.Get? && op.key == key && Answer(l, key, op.now).Some?)
  }

  /** When a key was last used: the position of the operation, read from the history and its answers. */
  function LastUse(ops: seq<Op>, key: string, budget: nat): (at: int)
    ensures -1 <= at < |ops|
  {
    if ops == [] then -1 else
      var n := |ops| - 1;
      if Uses(Run(ops[..n], budget), ops[n], key, budget) then n else LastUse(ops[..n], key, budget)
  }

  function Newer(ops: seq<Op>, budget: nat): (string, string) -> bool {
    (a: string, b: string) => LastUse(ops, a, budget) > LastUse(ops, b, budget)
  }

  /** Keys an operation does not use are as they were, and the one it uses is newest. */
  lemma UseStep(ops: seq<Op>, budget: nat, was: Records, op: Op, l: Records, used: string)
    requires ops != [] && was == Run(ops[..|ops| - 1], budget) && op == ops[|ops| - 1]
    requires InOrder(l, Newer(ops[..|ops| - 1], budget)) && forall i :: 0 <= i < |l| ==> l[i].key != used
    requires forall key :: key != used ==> !Uses(was, op, key, budget)
    ensures InOrder(l, Newer(ops, budget))
    ensures Uses(was, op, used, budget) ==> forall i :: 0 <= i < |l| ==> Newer(ops, budget)(used, l[i].key)
  {
    InOrderAgain(l, Newer(ops[..|ops| - 1], budget), Newer(ops, budget));
  }

  /** An operation that uses nothing changes no order. */
  lemma NoUseStep(ops: seq<Op>, budget: nat, was: Records, op: Op, l: Records)
    requires ops != [] && was == Run(ops[..|ops| - 1], budget) && op == ops[|ops| - 1]
    requires InOrder(l, Newer(ops[..|ops| - 1], budget)) && forall key :: !Uses(was, op, key, budget)
    ensures InOrder(l, Newer(ops, budget))
  {
    InOrderAgain(l, Newer(ops[..|ops| - 1], budget), Newer(ops, budget));
  }

  /** The pushed list of a set, in order of use. */
  lemma PushedInOrder(ops: seq<Op>, budget: nat)
    requires ops != [] && ops[|ops| - 1].Set? && Stores(ops[|ops| - 1], ops[|ops| - 1].key, budget)
    requires InOrder(Run(ops[..|ops| - 1], budget), Newer(ops[..|ops| - 1], budget))
    ensures var op := ops[|ops| - 1];
            InOrder([RecordOf(op.key, op.entry)] + RemoveKey(Run(ops[..|ops| - 1], budget), op.key), Newer(ops, budget))
  {
    var before, op := ops[..|ops| - 1], ops[|ops| - 1];
    var l := Run(before, budget);
    RunKept(before, budget);
    InOrderRemove(l, op.key, Newer(before, budget));
    WithoutKey(l, op.key);
    UseStep(ops, budget, l, op, RemoveKey(l, op.key), op.key);
    InOrderPush(RecordOf(op.key, op.entry), RemoveKey(l, op.key), Newer(ops, budget));
  }

  lemma GetInOrder(ops: seq<Op>, budget: nat)
    requires ops != [] && ops[|ops| - 1].Get?
    requires InOrder(Run(ops[..|ops| - 1], budget), Newer(ops[..|ops| - 1], budget))
    ensures InOrder(Run(ops, budget), Newer(ops, budget))
  {
    var before, op := ops[..|ops| - 1], ops[|ops| - 1];
    var l := Run(before, budget);
    RunKept(before, budget);
    InOrderRemove(l, op.key, Newer(before, budget));
    if Answer(l, op.key, op.now).Some? {
      WithoutKey(l, op.key);
      UseStep(ops, budget, l, op, RemoveKey(l, op.key), op.key);
      InOrderPush(l[Position(l, op.key)], RemoveKey(l, op.key), Newer(ops, budget));
    } else {
      NoUseStep(ops, budget, l, op, Run(ops, budget));
    }
  }

  /** Over every run the list is strictly in order of last use. */
  lemma {:induction false} ListedByUse(ops: seq<Op>, budget: nat)
    ensures InOrder(Run(ops, budget), Newer(ops, budget))
  {
    if ops != [] {
      var before, op := ops[..|ops| - 1], ops[|ops| - 1];
      var l := Run(before, budget);
      ListedByUse(before, budget);
      match op
      case Get(_, _) => GetInOrder(ops, budget);
      case Set(key, e) =>
        if Stores(op, key, budget) {
          PushedInOrder(ops, budget);
          InOrderFit([RecordOf(key, e)] + RemoveKey(l, key), budget, Newer(ops, budget));
        } else {
          InOrderRemove(l, key, Newer(before, budget));
          NoUseStep(ops, budget, l, op, Run(ops, budget));
        }
      case Purge(service, prefix) =>
        InOrderUnpurged(l, service, prefix, Newer(before, budget));
        NoUseStep(ops, budget, l, op, Run(ops, budget));
      case Close =>
    }
  }

  /** So every record a set pushes out was last used before every record it leaves. */
  lemma EvictsLeastRecentlyUsed(ops: seq<Op>, budget: nat, gone: string, kept: string)
    requires ops != [] && ops[|ops| - 1].Set? && gone != ops[|ops| - 1].key
    requires Has(Run(ops[..|ops| - 1], budget), gone) && !Has(Run(ops, budget), gone) && Has(Run(ops, budget), kept)
    ensures LastUse(ops, gone, budget) < LastUse(ops, kept, budget)
  {
    var before, op := ops[..|ops| - 1], ops[|ops| - 1];
    var l := Run(before, budget);
    RunKept(before, budget);
    FindRemove(l, op.key, gone);
    assert Has(RemoveKey(l, op.key), gone) <==> Find(RemoveKey(l, op.key), gone).Some?;
    ListedByUse(before, budget);
    PushedInOrder(ops, budget);
    var x := RecordOf(op.key, op.entry);
    FindPush(x, RemoveKey(l, op.key), gone);
    RemoveKeyFacts(l, op.key);
    PushUnique(x, RemoveKey(l, op.key));
    OldestGo([x] + RemoveKey(l, op.key), budget, Newer(ops, budget), gone, kept);
  }

  // ---- The store itself ----

  class Store {
    const maxBytes: nat
    const index: RecencyIndex<Entry>
    var evictedFresh: nat
    var evictedStale: nat
    var oversized: nat

    ghost predicate Valid()
      reads this, index
    {
      index.Valid() && index.bytes <= maxBytes
    }

    constructor (maxBytes: nat)
      ensures Valid() && index.order == [] && this.maxBytes == maxBytes && fresh(index)
    {
      this.maxBytes := maxBytes;
      index := new RecencyIndex();
      evictedFresh, evictedStale, oversized := 0, 0, 0;
    }

    method Get(key: string, now: int) returns (found: Option<Entry>)
      requires Valid()
      modifies index
      ensures Valid() && index.order == AfterGet(old(index.order), key, now)
      ensures found == Answer(old(index.order), key, now)
    {
      if key !in index.records {
        return None;
      }
      var record := index.records[key];
      RemoveKeyFacts(index.order, key);
      ToFrontFacts(index.order, Position(index.order, key));
      if !Servable(record.value, now) {
        index.Remove(key);
        return None;
      }
      index.Touch(key);
      return Some(record.value);
    }

    method Set(key: string, entry: Entry, now: int)
      requires Valid()
      modifies this, index
      ensures Valid() && index.order == AfterSet(old(index.order), key, entry, maxBytes)
      ensures var gone := Displaced(old(index.order), key, entry, maxBytes);
              evictedFresh == old(evictedFresh) + FreshAmong(gone, now)
              && evictedStale == old(evictedStale) + |gone| - FreshAmong(gone, now)
      ensures oversized == old(oversized) + (if Ttl(entry) > 0 && Size(entry) > maxBytes then 1 else 0)
    {
      if Ttl(entry) == 0 {
        return;
      }
      ghost var before := index.order;
      Forget(key);
      if Size(entry) > maxBytes {
        oversized := oversized + 1;
        return;
      }
      index.Push(RecordOf(key, entry));
      var evicted := index.EvictToFit(maxBytes);
      FitLaw([RecordOf(key, entry)] + RemoveKey(before, key), maxBytes);
      Count(evicted, now);
    }

    /** Drops a key's record, if there is one, without counting an eviction. */
    method Forget(key: string)
      requires Valid()
      modifies index
      ensures Valid() && index.order == RemoveKey(old(index.order), key) && key !in index.records
    {
      if key in index.records {
        RemoveKeyFacts(index.order, key);
        index.Remove(key);
      }
    }

    method Count(evicted: Records, now: int)
      modifies this
      ensures evictedFresh == old(evictedFresh) + FreshAmong(evicted, now)
      ensures evictedStale == old(evictedStale) + |evicted| - FreshAmong(evicted, now)
      ensures oversized == old(oversized)
    {
      for i := 0 to |evicted|
        invariant evictedFresh == old(evictedFresh) + FreshAmong(evicted[..i], now)
        invariant evictedStale == old(evictedStale) + i - FreshAmong(evicted[..i], now)
        invariant oversized == old(oversized)
      {
        assert evicted[..i + 1][..i] == evicted[..i];
        if Fresh(evicted[i].value, now) {
          evictedFresh := evictedFresh + 1;
        } else {
          evictedStale := evictedStale + 1;
        }
      }
      assert evicted[..|evicted|] == evicted;
    }

    method Purge(service: string, prefix: string) returns (purged: nat)
      requires Valid()
      modifies index
      ensures Valid() && index.order == Unpurged(old(index.order), service, prefix)
      ensures purged == |old(index.order)| - |index.order|
    {
      UnpurgedFacts(index.order, service, prefix);
      var gone := index.PurgeMatching(service, prefix);
      purged := |gone|;
    }
  }
}
