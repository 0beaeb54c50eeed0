/**
 * Records in order of use under a byte budget: the list, key index, byte total
 * and per-service usage both in-process stores keep, and the plain list they
 * refine.
 */
module Recency {
  import opened Text

  /** One record: what finds it, what purges it, what it weighs, and what it holds. */
  datatype Item<V> = Item(key: string, service: string, path: string, size: nat, value: V)

  datatype Usage = Usage(entries: nat, bytes: nat)

  // ---- The plain list, most recent first ----

  function Position<V>(l: seq<Item<V>>, key: string): (i: nat)
    ensures i <= |l|
    ensures i < |l| ==> l[i].key == key
    ensures forall j :: 0 <= j < i ==> l[j].key != key
  {
    if l == [] || l[0].key == key then 0 else 1 + Position(l[1..], key)
  }

  predicate Has<V>(l: seq<Item<V>>, key: string) {
    Position(l, key) < |l|
  }

  function RemoveAt<V>(l: seq<Item<V>>, i: nat): seq<Item<V>>
    requires i < |l|
  {
    l[..i] + l[i + 1..]
  }

  function RemoveKey<V>(l: seq<Item<V>>, key: string): seq<Item<V>> {
    if Has(l, key) then RemoveAt(l, Position(l, key)) else l
  }

  function ToFront<V>(l: seq<Item<V>>, key: string): seq<Item<V>>
    requires Has(l, key)
  {
    [l[Position(l, key)]] + RemoveKey(l, key)
  }

  predicate Purged<V>(x: Item<V>, service: string, prefix: string) {
    x.service == service && HasPrefix(x.path, prefix)
  }

  function Unpurged<V>(l: seq<Item<V>>, service: string, prefix: string): seq<Item<V>> {
    if l == [] then [] else
      var rest := Unpurged(l[1..], service, prefix);
      if Purged(l[0], service, prefix) then rest else [l[0]] + rest
  }

  function Matching<V>(l: seq<Item<V>>, service: string, prefix: string): seq<Item<V>> {
    if l == [] then [] else
      var rest := Matching(l[1..], service, prefix);
      if Purged(l[0], service, prefix) then [l[0]] + rest else rest
  }

  function Sum<V>(l: seq<Item<V>>, f: Item<V> -> nat): nat {
    if l == [] then 0 else f(l[0]) + Sum(l[1..], f)
  }

  function Total<V>(l: seq<Item<V>>): nat {
    Sum(l, (x: Item<V>) => x.size)
  }

  function Entries<V>(l: seq<Item<V>>, service: string): nat {
    Sum(l, (x: Item<V>) => if x.service == service then 1 else 0)
  }

  function Bytes<V>(l: seq<Item<V>>, service: string): nat {
    Sum(l, (x: Item<V>) => if x.service == service then x.size else 0)
  }

  /** What is left when the least recently used go until the rest fits. */
  function Fit<V>(l: seq<Item<V>>, budget: nat): seq<Item<V>> {
    if l == [] || Total(l) <= budget then l else Fit(l[..|l| - 1], budget)
  }

  ghost predicate UniqueKeys<V>(l: seq<Item<V>>) {
    forall i, j :: 0 <= i < j < |l| ==> l[i].key != l[j].key
  }

  lemma {:induction false} SumAppend<V>(a: seq<Item<V>>, b: seq<Item<V>>, f: Item<V> -> nat)
    ensures Sum(a + b, f) == Sum(a, f) + Sum(b, f)
  {
    if a == [] {
      assert a + b == b;
    } else {
      assert (a + b)[1..] == a[1..] + b;
      SumAppend(a[1..], b, f);
    }
  }

  lemma SumRemoveAt<V>(l: seq<Item<V>>, i: nat, f: Item<V> -> nat)
    requires i < |l|
    ensures Sum(l, f) == Sum(RemoveAt(l, i), f) + f(l[i])
  {
    assert l == l[..i] + ([l[i]] + l[i + 1..]);
    SumAppend(l[..i], [l[i]] + l[i + 1..], f);
    SumAppend(l[..i], l[i + 1..], f);
    assert ([l[i]] + l[i + 1..])[1..] == l[i + 1..];
  }

  lemma SumCons<V>(x: Item<V>, l: seq<Item<V>>, f: Item<V> -> nat)
    ensures Sum([x] + l, f) == f(x) + Sum(l, f)
  {
    assert ([x] + l)[1..] == l;
  }

  lemma PositionIs<V>(l: seq<Item<V>>, i: nat)
    requires i < |l| && UniqueKeys(l)
    ensures Position(l, l[i].key) == i
  {
  }

  lemma RemoveAtMembers<V>(l: seq<Item<V>>, i: nat, x: Item<V>)
    requires UniqueKeys(l) && i < |l|
    ensures x in RemoveAt(l, i) <==> x in l && x.key != l[i].key
  {
    var r := RemoveAt(l, i);
    if x in l && x.key != l[i].key {
      var j :| 0 <= j < |l| && l[j] == x;
      assert r[if j < i then j else j - 1] == x;
    }
    if x in r {
      var j :| 0 <= j < |r| && r[j] == x;
      assert l[if j < i then j else j + 1] == x;
    }
  }

  lemma RemoveAtUnique<V>(l: seq<Item<V>>, i: nat)
    requires UniqueKeys(l) && i < |l|
    ensures UniqueKeys(RemoveAt(l, i))
  {
    var r := RemoveAt(l, i);
    assert forall j :: 0 <= j < |r| ==> r[j] == l[if j < i then j else j + 1];
  }

  /** In a list with unique keys, removing an element's key removes that element. */
  lemma RemoveElement<V>(l: seq<Item<V>>, i: nat)
    requires UniqueKeys(l) && i < |l|
    ensures RemoveKey(l, l[i].key) == RemoveAt(l, i)
    ensures i == |l| - 1 ==> RemoveAt(l, i) == l[..i]
  {
    PositionIs(l, i);
  }

  lemma RemoveKeyFacts<V>(l: seq<Item<V>>, key: string)
    requires UniqueKeys(l)
    ensures UniqueKeys(RemoveKey(l, key)) && !Has(RemoveKey(l, key), key)
    ensures forall x :: x in RemoveKey(l, key) <==> x in l && x.key != key
    ensures Total(RemoveKey(l, key)) <= Total(l)
  {
    var r := RemoveKey(l, key);
    if Has(l, key) {
      var i := Position(l, key);
      SumRemoveAt(l, i, (x: Item<V>) => x.size);
      RemoveAtUnique(l, i);
      forall x ensures x in r <==> x in l && x.key != key {
        RemoveAtMembers(l, i, x);
      }
    }
    assert forall j :: 0 <= j < |r| ==> r[j] in r;
  }

  lemma SumToFront<V>(l: seq<Item<V>>, i: nat, f: Item<V> -> nat)
    requires i < |l|
    ensures Sum([l[i]] + RemoveAt(l, i), f) == Sum(l, f)
  {
    SumRemoveAt(l, i, f);
    SumCons(l[i], RemoveAt(l, i), f);
  }

  lemma ToFrontFacts<V>(l: seq<Item<V>>, i: nat)
    requires UniqueKeys(l) && i < |l|
    ensures UniqueKeys([l[i]] + RemoveAt(l, i))
    ensures forall x :: x in [l[i]] + RemoveAt(l, i) <==> x in l
    ensures Total([l[i]] + RemoveAt(l, i)) == Total(l)
  {
    var r := RemoveAt(l, i);
    SumToFront(l, i, (y: Item<V>) => y.size);
    RemoveAtUnique(l, i);
    forall x ensures x in [l[i]] + r <==> x in l {
      RemoveAtMembers(l, i, x);
      if x in l && x.key == l[i].key {
        var j :| 0 <= j < |l| && l[j] == x;
        assert j == i;
      }
    }
    forall j | 0 <= j < |r| ensures r[j].key != l[i].key {
      RemoveAtMembers(l, i, r[j]);
    }
  }

  /** Only a suffix goes, no longer than it must be: one record more would not have fit. */
  lemma {:induction false} FitLaw<V>(l: seq<Item<V>>, budget: nat)
    ensures |Fit(l, budget)| <= |l| && Fit(l, budget) == l[..|Fit(l, budget)|]
    ensures Total(Fit(l, budget)) <= budget
    ensures forall n :: |Fit(l, budget)| < n <= |l| ==> Total(l[..n]) > budget
  {
    if l != [] && Total(l) > budget {
      var front := l[..|l| - 1];
      FitLaw(front, budget);
      var kept := |Fit(front, budget)|;
      assert front[..kept] == l[..kept];
      forall n | kept < n <= |l| ensures Total(l[..n]) > budget {
        if n < |l| {
          assert l[..n] == front[..n];
        } else {
          assert l[..n] == l;
        }
      }
    } else {
      assert l[..|l|] == l;
    }
  }

  lemma {:induction false} PrefixTotals<V>(l: seq<Item<V>>, m: nat, n: nat)
    requires m <= n <= |l|
    ensures Total(l[..m]) <= Total(l[..n])
  {
    assert l[..n] == l[..m] + l[m..n];
    SumAppend(l[..m], l[m..n], (x: Item<V>) => x.size);
  }

  /** A record survives exactly when it and everything used more recently fit together. */
  lemma FitKeeps<V>(l: seq<Item<V>>, budget: nat, i: nat)
    requires i < |l|
    ensures i < |Fit(l, budget)| <==> Total(l[..i + 1]) <= budget
  {
    FitLaw(l, budget);
    var kept := |Fit(l, budget)|;
    if i < kept {
      PrefixTotals(l, i + 1, kept);
    }
  }

  lemma {:induction false} UnpurgedMember<V>(l: seq<Item<V>>, service: string, prefix: string, x: Item<V>)
    ensures x in Unpurged(l, service, prefix) <==> x in l && !Purged(x, service, prefix)
  {
    if l != [] {
      UnpurgedMember(l[1..], service, prefix, x);
      assert l == [l[0]] + l[1..];
    }
  }

  lemma {:induction false} UnpurgedFacts<V>(l: seq<Item<V>>, service: string, prefix: string)
    requires UniqueKeys(l)
    ensures UniqueKeys(Unpurged(l, service, prefix))
    ensures Total(Unpurged(l, service, prefix)) <= Total(l)
  {
    if l != [] {
      var rest := Unpurged(l[1..], service, prefix);
      UnpurgedFacts(l[1..], service, prefix);
      SumCons(l[0], rest, (x: Item<V>) => x.size);
      forall j | 0 <= j < |rest| ensures rest[j].key != l[0].key {
        UnpurgedMember(l[1..], service, prefix, rest[j]);
        var i :| 0 <= i < |l[1..]| && l[1..][i] == rest[j];
        assert l[i + 1] == rest[j];
      }
    }
  }

  // ---- What each operation does to one key's record ----

  function Find<V>(l: seq<Item<V>>, key: string): Option<Item<V>> {
    if Has(l, key) then Some(l[Position(l, key)]) else None
  }

  lemma FindRemove<V>(l: seq<Item<V>>, key: string, other: string)
    requires UniqueKeys(l)
    ensures Find(RemoveKey(l, key), other) == if other == key then None else Find(l, other)
  {
    if Has(l, key) {
      var p := Position(l, key);
      var r := RemoveAt(l, p);
      RemoveAtUnique(l, p);
      assert forall j :: 0 <= j < |r| ==> r[j] == l[if j < p then j else j + 1];
      if other != key && Has(l, other) {
        var i := Position(l, other);
        PositionIs(r, if i < p then i else i - 1);
      }
    }
  }

  lemma FindPush<V>(x: Item<V>, l: seq<Item<V>>, key: string)
    ensures Find([x] + l, key) == if key == x.key then Some(x) else Find(l, key)
  {
    assert ([x] + l)[1..] == l;
  }

  lemma FindToFront<V>(l: seq<Item<V>>, key: string, other: string)
    requires UniqueKeys(l) && Has(l, key)
    ensures Find(ToFront(l, key), other) == Find(l, other)
  {
    FindRemove(l, key, other);
    FindPush(l[Position(l, key)], RemoveKey(l, key), other);
  }

  /** Together with everything used more recently, it does not fit. */
  predicate Evicted<V>(l: seq<Item<V>>, key: string, budget: nat) {
    Has(l, key) && Total(l[..Position(l, key) + 1]) > budget
  }

  lemma FindFit<V>(l: seq<Item<V>>, budget: nat, key: string)
    requires UniqueKeys(l)
    ensures UniqueKeys(Fit(l, budget))
    ensures Find(Fit(l, budget), key) == if Evicted(l, key, budget) then None else Find(l, key)
  {
    var kept := Fit(l, budget);
    FitLaw(l, budget);
    assert forall j :: 0 <= j < |kept| ==> kept[j] == l[j];
    if Has(l, key) {
      var i := Position(l, key);
      FitKeeps(l, budget, i);
      if i < |kept| {
        PositionIs(kept, i);
      }
    }
  }

  lemma {:induction false} FindUnpurged<V>(l: seq<Item<V>>, service: string, prefix: string, key: string)
    requires UniqueKeys(l)
    ensures Find(Unpurged(l, service, prefix), key)
            == if Has(l, key) && Purged(Find(l, key).value, service, prefix) then None else Find(l, key)
  {
    if l != [] {
      var rest := Unpurged(l[1..], service, prefix);
      FindUnpurged(l[1..], service, prefix, key);
      FindPush(l[0], rest, key);
      FindPush(l[0], l[1..], key);
      assert l == [l[0]] + l[1..];
      if key == l[0].key {
        assert !Has(l[1..], key);
      }
    }
  }

  /** The record pushed in front survives an eviction when it fits alone. */
  lemma FrontFits<V>(x: Item<V>, l: seq<Item<V>>, budget: nat)
    requires x.size <= budget
    ensures |Fit([x] + l, budget)| > 0 && Fit([x] + l, budget)[0] == x
  {
    var pushed := [x] + l;
    FitLaw(pushed, budget);
    FitKeeps(pushed, budget, 0);
    SumCons(x, [], (y: Item<V>) => y.size);
    assert pushed[..1] == [x] + [];
  }

  lemma PushUnique<V>(x: Item<V>, l: seq<Item<V>>)
    requires UniqueKeys(l) && !Has(l, x.key)
    ensures UniqueKeys([x] + l)
  {
  }

  lemma WithoutKey<V>(l: seq<Item<V>>, key: string)
    requires UniqueKeys(l)
    ensures forall i :: 0 <= i < |RemoveKey(l, key)| ==> RemoveKey(l, key)[i].key != key
  {
    RemoveKeyFacts(l, key);
    var r := RemoveKey(l, key);
    assert forall i :: 0 <= i < |r| ==> r[i] in r;
  }

  lemma CountOneMore(before: set<int>, all: set<int>, n: int, more: bool)
    requires n !in before && forall i :: i in all <==> i in before || (more && i == n)
    ensures |all| == |before| + if more then 1 else 0
  {
    var want := if more then before + {n} else before;
    forall i ensures i in all <==> i in want { }
    assert all == want;
  }

  /** Cutting a list with unique keys in two shares out its records. */
  lemma SplitApart<V>(l: seq<Item<V>>, n: nat, x: Item<V>)
    requires UniqueKeys(l) && n <= |l|
    ensures UniqueKeys(l[n..]) && (x in l[n..] <==> x in l && x !in l[..n])
  {
    assert l == l[..n] + l[n..];
  }

  // ---- The list is in order of use ----

  /** Each record's key is newer than the keys of all behind it, whatever newer means. */
  ghost predicate InOrder<V>(l: seq<Item<V>>, newer: (string, string) -> bool) {
    forall i, j :: 0 <= i < j < |l| ==> newer(l[i].key, l[j].key)
  }

  lemma InOrderRemoveAt<V>(l: seq<Item<V>>, p: nat, newer: (string, string) -> bool)
    requires p < |l| && InOrder(l, newer)
    ensures InOrder(RemoveAt(l, p), newer)
  {
    var r := RemoveAt(l, p);
    forall i, j | 0 <= i < j < |r| ensures newer(r[i].key, r[j].key) {
      assert r[i] == l[if i < p then i else i + 1] && r[j] == l[if j < p then j else j + 1];
    }
  }

  lemma InOrderRemove<V>(l: seq<Item<V>>, key: string, newer: (string, string) -> bool)
    requires InOrder(l, newer)
    ensures InOrder(RemoveKey(l, key), newer)
  {
    if Has(l, key) {
      InOrderRemoveAt(l, Position(l, key), newer);
    }
  }

  lemma InOrderPush<V>(x: Item<V>, l: seq<Item<V>>, newer: (string, string) -> bool)
    requires InOrder(l, newer) && forall i :: 0 <= i < |l| ==> newer(x.key, l[i].key)
    ensures InOrder([x] + l, newer)
  {
  }

  lemma {:induction false} InOrderUnpurged<V>(l: seq<Item<V>>, service: string, prefix: string, newer: (string, string) -> bool)
    requires InOrder(l, newer)
    ensures InOrder(Unpurged(l, service, prefix), newer)
  {
    if l != [] {
      var rest := Unpurged(l[1..], service, prefix);
      InOrderUnpurged(l[1..], service, prefix, newer);
      forall j | 0 <= j < |rest| ensures newer(l[0].key, rest[j].key) {
        UnpurgedMember(l[1..], service, prefix, rest[j]);
        var i :| 0 <= i < |l[1..]| && l[1..][i] == rest[j];
        assert l[i + 1] == rest[j];
      }
    }
  }

  lemma InOrderFit<V>(l: seq<Item<V>>, budget: nat, newer: (string, string) -> bool)
    requires InOrder(l, newer)
    ensures InOrder(Fit(l, budget), newer)
  {
    FitLaw(l, budget);
  }

  lemma InOrderAgain<V>(l: seq<Item<V>>, newer: (string, string) -> bool, now: (string, string) -> bool)
    requires InOrder(l, newer)
    requires forall i, j :: 0 <= i < |l| && 0 <= j < |l| && newer(l[i].key, l[j].key) ==> now(l[i].key, l[j].key)
    ensures InOrder(l, now)
  {
  }

  /** What does not fit is older than everything that does. */
  lemma OldestGo<V>(l: seq<Item<V>>, budget: nat, newer: (string, string) -> bool, gone: string, kept: string)
    requires UniqueKeys(l) && InOrder(l, newer) && Has(l, gone)
    requires !Has(Fit(l, budget), gone) && Has(Fit(l, budget), kept)
    ensures newer(kept, gone)
  {
    FitLaw(l, budget);
    var fit := Fit(l, budget);
    var j := Position(fit, kept);
    var i := Position(l, gone);
    assert fit[j] == l[j];
  }

  // ---- The structure that refines it ----

  ghost predicate UsageMatches<V>(services: map<string, Usage>, l: seq<Item<V>>) {
    && (forall s :: s in services <==> Entries(l, s) > 0)
    && (forall s :: s in services ==> services[s] == Usage(Entries(l, s), Bytes(l, s)))
  }

  /** The key index holds the list's records, each under its own key. */
  ghost predicate KeysMatch<V>(records: map<string, Item<V>>, l: seq<Item<V>>) {
    && UniqueKeys(l)
    && (forall k :: k in records <==> Has(l, k))
    && (forall k :: k in records ==> Find(l, k) == Some(records[k]))
  }

  lemma KeysMatchPush<V>(records: map<string, Item<V>>, l: seq<Item<V>>, x: Item<V>)
    requires KeysMatch(records, l) && x.key !in records
    ensures KeysMatch(records[x.key := x], [x] + l)
  {
    PushUnique(x, l);
    forall k ensures Find([x] + l, k) == if k == x.key then Some(x) else Find(l, k)
      ensures Has([x] + l, k) <==> k == x.key || Has(l, k)
    {
      FindPush(x, l, k);
    }
  }

  lemma KeysMatchRemove<V>(records: map<string, Item<V>>, l: seq<Item<V>>, key: string)
    requires KeysMatch(records, l)
    ensures KeysMatch(records - {key}, RemoveKey(l, key))
  {
    RemoveKeyUnique(l, key);
    forall k ensures Find(RemoveKey(l, key), k) == if k == key then None else Find(l, k)
      ensures Has(RemoveKey(l, key), k) <==> k != key && Has(l, k)
    {
      FindRemove(l, key, k);
    }
  }

  lemma RemoveKeyUnique<V>(l: seq<Item<V>>, key: string)
    requires UniqueKeys(l)
    ensures UniqueKeys(RemoveKey(l, key))
  {
    if Has(l, key) {
      RemoveAtUnique(l, Position(l, key));
    }
  }

  lemma KeysMatchFront<V>(records: map<string, Item<V>>, l: seq<Item<V>>, key: string)
    requires KeysMatch(records, l) && Has(l, key)
    ensures KeysMatch(records, ToFront(l, key))
  {
    RemoveKeyUnique(l, key);
    FindRemove(l, key, key);
    PushUnique(l[Position(l, key)], RemoveKey(l, key));
    forall k ensures Find(ToFront(l, key), k) == Find(l, k)
      ensures Has(ToFront(l, key), k) <==> Has(l, k)
    {
      FindToFront(l, key, k);
    }
  }

  lemma UsageFront<V>(services: map<string, Usage>, l: seq<Item<V>>, key: string)
    requires UsageMatches(services, l) && Has(l, key)
    ensures UsageMatches(services, ToFront(l, key))
    ensures Total(ToFront(l, key)) == Total(l)
  {
    var i := Position(l, key);
    SumToFront(l, i, (y: Item<V>) => y.size);
    forall s ensures Entries(ToFront(l, key), s) == Entries(l, s)
      ensures Bytes(ToFront(l, key), s) == Bytes(l, s)
    {
      SumToFront(l, i, (y: Item<V>) => if y.service == s then 1 else 0);
      SumToFront(l, i, (y: Item<V>) => if y.service == s then y.size else 0);
    }
  }

  class RecencyIndex<V> {
    var records: map<string, Item<V>>
    var order: seq<Item<V>>
    var bytes: int
    var services: map<string, Usage>

    /** The index is the list's keys, the total its sizes, and the usage its per-service sums. */
    ghost predicate Valid()
      reads this
    {
      KeysMatch(records, order) && bytes == Total(order) && UsageMatches(services, order)
    }

    constructor ()
      ensures Valid() && order == []
    {
      records, order, bytes, services := map[], [], 0, map[];
    }

    method AddUsage(service: string, size: nat, ghost before: seq<Item<V>>, ghost x: Item<V>)
      requires UsageMatches(services, before) && x.service == service && x.size == size
      modifies this`services
      ensures UsageMatches(services, [x] + before)
    {
      forall s ensures Entries([x] + before, s) == (if s == service then 1 else 0) + Entries(before, s)
        ensures Bytes([x] + before, s) == (if s == service then size else 0) + Bytes(before, s)
      {
        SumCons(x, before, (y: Item<V>) => if y.service == s then 1 else 0);
        SumCons(x, before, (y: Item<V>) => if y.service == s then y.size else 0);
      }
      var usage := if service in services then services[service] else Usage(0, 0);
      if service !in services {
        NoEntriesNoBytes(before, service);
      }
      services := services[service := Usage(usage.entries + 1, usage.bytes + size)];
    }

    method RemoveUsage(service: string, size: nat, ghost before: seq<Item<V>>, ghost i: nat)
      requires UsageMatches(services, before) && i < |before| && before[i].service == service && before[i].size == size
      modifies this`services
      ensures UsageMatches(services, RemoveAt(before, i))
    {
      ghost var after := RemoveAt(before, i);
      forall s ensures Entries(before, s) == (if s == service then 1 else 0) + Entries(after, s)
        ensures Bytes(before, s) == (if s == service then size else 0) + Bytes(after, s)
      {
        SumRemoveAt(before, i, (y: Item<V>) => if y.service == s then 1 else 0);
        SumRemoveAt(before, i, (y: Item<V>) => if y.service == s then y.size else 0);
      }
      var usage := services[service];
      if usage.entries <= 1 {
        services := services - {service};
      } else {
        services := services[service := Usage(usage.entries - 1, usage.bytes - size)];
      }
    }

    method Push(x: Item<V>)
      requires Valid() && x.key !in records
      modifies this
      ensures Valid() && order == [x] + old(order)
    {
      SumCons(x, order, (y: Item<V>) => y.size);
      KeysMatchPush(records, order, x);
      AddUsage(x.service, x.size, order, x);
      records := records[x.key := x];
      order := [x] + order;
      bytes := bytes + x.size;
    }

    method Remove(key: string)
      requires Valid() && key in records
      modifies this
      ensures Valid() && order == RemoveKey(old(order), key)
      ensures records == old(records) - {key}
    {
      var x := records[key];
      assert Find(order, key) == Some(x);
      var i := Position(order, key);
      SumRemoveAt(order, i, (y: Item<V>) => y.size);
      KeysMatchRemove(records, order, key);
      RemoveUsage(x.service, x.size, order, i);
      order := order[..i] + order[i + 1..];
      records := records - {key};
      bytes := bytes - x.size;
    }

    method Touch(key: string)
      requires Valid() && key in records
      modifies this`order
      ensures Valid() && Has(old(order), key) && order == ToFront(old(order), key)
    {
      KeysMatchFront(records, order, key);
      UsageFront(services, order, key);
      order := ToFront(order, key);
    }

    /** Removes the record at a place in the list. */
    method DropAt(i: nat)
      requires Valid() && i < |order|
      modifies this
      ensures Valid() && order == RemoveAt(old(order), i)
    {
      RemoveElement(order, i);
      PositionIs(order, i);
      Remove(order[i].key);
    }

    method DropOldest(budget: nat) returns (oldest: Item<V>)
      requires Valid() && bytes > budget
      modifies this
      ensures Valid() && |order| < |old(order)| && old(order) == order + [oldest]
      ensures Fit(order, budget) == Fit(old(order), budget)
    {
      var n := |order| - 1;
      oldest := order[n];
      FitStep(order, budget);
      DropAt(n);
    }

    /** Drops from the back until the rest fits, and says what went. */
    method EvictToFit(budget: nat) returns (evicted: seq<Item<V>>)
      requires Valid()
      modifies this
      ensures Valid() && order == Fit(old(order), budget)
      ensures old(order) == order + evicted
    {
      evicted := [];
      ghost var whole := order;
      while bytes > budget
        invariant Valid()
        invariant Fit(order, budget) == Fit(whole, budget)
        invariant whole == order + evicted
        decreases |order|
      {
        var oldest := DropOldest(budget);
        Reassociate(order, oldest, evicted);
        evicted := [oldest] + evicted;
      }
      FitDone(order, budget);
    }

    /** Walks the list front to back, dropping what matches. */
    method PurgeMatching(service: string, prefix: string) returns (gone: seq<Item<V>>)
      requires Valid()
      modifies this
      ensures Valid() && order == Unpurged(old(order), service, prefix)
      ensures |gone| == |old(order)| - |order|
      ensures gone == Matching(old(order), service, prefix)
    {
      gone := [];
      var i := 0;
      ghost var whole := order;
      while i < |order|
        invariant Valid() && i <= |order|
        invariant order[..i] + Unpurged(order[i..], service, prefix) == Unpurged(whole, service, prefix)
        invariant |gone| == |whole| - |order|
        invariant gone + Matching(order[i..], service, prefix) == Matching(whole, service, prefix)
        decreases |order| - i
      {
        UnpurgedStep(order, i, service, prefix);
        MatchingStep(order, i, gone, service, prefix);
        if order[i].service == service && HasPrefix(order[i].path, prefix) {
          gone := gone + [order[i]];
          DropAt(i);
        } else {
          i := i + 1;
        }
      }
      assert order[..i] == order && order[i..] == [];
    }
  }

  lemma Reassociate<V>(a: seq<Item<V>>, x: Item<V>, b: seq<Item<V>>)
    ensures (a + [x]) + b == a + ([x] + b)
  {
  }

  lemma FitDone<V>(l: seq<Item<V>>, budget: nat)
    requires Total(l) <= budget
    ensures Fit(l, budget) == l
  {
  }

  lemma FitStep<V>(l: seq<Item<V>>, budget: nat)
    requires l != [] && Total(l) > budget
    ensures RemoveAt(l, |l| - 1) == l[..|l| - 1] && l == l[..|l| - 1] + [l[|l| - 1]]
    ensures Fit(l, budget) == Fit(l[..|l| - 1], budget)
  {
  }

  lemma MatchingStep<V>(l: seq<Item<V>>, i: nat, gone: seq<Item<V>>, service: string, prefix: string)
    requires i < |l|
    ensures gone + Matching(l[i..], service, prefix)
         == if Purged(l[i], service, prefix) then (gone + [l[i]]) + Matching(RemoveAt(l, i)[i..], service, prefix)
            else gone + Matching(l[i + 1..], service, prefix)
  {
    assert RemoveAt(l, i)[i..] == l[i + 1..] && l[i..][1..] == l[i + 1..];
  }

  lemma UnpurgedStep<V>(l: seq<Item<V>>, i: nat, service: string, prefix: string)
    requires i < |l|
    ensures Purged(l[i], service, prefix) ==>
              var r := RemoveAt(l, i);
              r[..i] + Unpurged(r[i..], service, prefix) == l[..i] + Unpurged(l[i..], service, prefix)
    ensures !Purged(l[i], service, prefix) ==>
              l[..i + 1] + Unpurged(l[i + 1..], service, prefix) == l[..i] + Unpurged(l[i..], service, prefix)
  {
    var r := RemoveAt(l, i);
    assert r[..i] == l[..i] && r[i..] == l[i + 1..] && l[i..][1..] == l[i + 1..];
    assert l[..i + 1] == l[..i] + [l[i]];
  }

  lemma {:induction false} NoEntriesNoBytes<V>(l: seq<Item<V>>, service: string)
    requires Entries(l, service) == 0
    ensures Bytes(l, service) == 0
  {
    if l != [] {
      var f := (x: Item<V>) => if x.service == service then 1 else 0;
      assert Sum(l, f) == f(l[0]) + Sum(l[1..], f);
      NoEntriesNoBytes(l[1..], service);
    }
  }
}
