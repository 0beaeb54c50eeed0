/**
 * Partitioning a slice by a key, keeping first-appearance order of the keys and
 * input order inside each part. Both order splits -- by challenge solvability
 * and by ACME directory -- are this loop with a different key.
 */
module Grouping {

  function KeysInOrder<T, K(==)>(items: seq<T>, keyOf: T -> K): seq<K> {
    if items == [] then [] else
      var before := KeysInOrder(items[..|items| - 1], keyOf);
      var key := keyOf(items[|items| - 1]);
      if key in before then before else before + [key]
  }

  function Members<T, K(==)>(items: seq<T>, keyOf: T -> K, key: K): seq<T> {
    if items == [] then [] else
      var before := Members(items[..|items| - 1], keyOf, key);
      var last := items[|items| - 1];
      if keyOf(last) == key then before + [last] else before
  }

  function GroupBy<T, K(==)>(items: seq<T>, keyOf: T -> K): seq<seq<T>> {
    var keys := KeysInOrder(items, keyOf);
    seq(|keys|, i requires 0 <= i < |keys| => Members(items, keyOf, keys[i]))
  }

  function Flatten<T>(parts: seq<seq<T>>): seq<T> {
    if parts == [] then [] else Flatten(parts[..|parts| - 1]) + parts[|parts| - 1]
  }

  lemma {:induction false} KeysFacts<T, K>(items: seq<T>, keyOf: T -> K)
    ensures forall i, j :: 0 <= i < j < |KeysInOrder(items, keyOf)| ==>
              KeysInOrder(items, keyOf)[i] != KeysInOrder(items, keyOf)[j]
    ensures forall x :: x in items ==> keyOf(x) in KeysInOrder(items, keyOf)
    ensures forall k :: k in KeysInOrder(items, keyOf) ==> exists x :: x in items && keyOf(x) == k
  {
    if items != [] {
      var front, last := items[..|items| - 1], items[|items| - 1];
      KeysFacts(front, keyOf);
      assert items == front + [last];
      forall k | k in KeysInOrder(items, keyOf) ensures exists x :: x in items && keyOf(x) == k {
        if k in KeysInOrder(front, keyOf) {
          var x :| x in front && keyOf(x) == k;
          assert x in items;
        } else {
          assert last in items && keyOf(last) == k;
        }
      }
    }
  }

  lemma {:induction false} MembersFacts<T, K>(items: seq<T>, keyOf: T -> K, key: K)
    ensures forall x :: x in Members(items, keyOf, key) <==> x in items && keyOf(x) == key
  {
    if items != [] {
      MembersFacts(items[..|items| - 1], keyOf, key);
      assert items == items[..|items| - 1] + [items[|items| - 1]];
    }
  }

  /** A part holds exactly the items of its key. */
  lemma InPart<T, K>(items: seq<T>, keyOf: T -> K, i: nat, x: T)
    requires i < |GroupBy(items, keyOf)|
    ensures x in GroupBy(items, keyOf)[i] <==> x in items && keyOf(x) == KeysInOrder(items, keyOf)[i]
  {
    MembersFacts(items, keyOf, KeysInOrder(items, keyOf)[i]);
  }

  /** Every item is in a part, and in no other. */
  lemma PartOf<T, K>(items: seq<T>, keyOf: T -> K, x: T) returns (i: nat)
    requires x in items
    ensures i < |GroupBy(items, keyOf)| && x in GroupBy(items, keyOf)[i]
    ensures forall j :: 0 <= j < |GroupBy(items, keyOf)| && x in GroupBy(items, keyOf)[j] ==> j == i
  {
    KeysFacts(items, keyOf);
    i :| 0 <= i < |KeysInOrder(items, keyOf)| && KeysInOrder(items, keyOf)[i] == keyOf(x);
    InPart(items, keyOf, i, x);
    forall j | 0 <= j < |GroupBy(items, keyOf)| && x in GroupBy(items, keyOf)[j] ensures j == i {
      InPart(items, keyOf, j, x);
    }
  }

  lemma {:induction false} FlattenGroups<T, K>(items: seq<T>, keyOf: T -> K, keys: seq<K>)
    requires forall i, j :: 0 <= i < j < |keys| ==> keys[i] != keys[j]
    requires forall x :: x in items ==> keyOf(x) in keys
    ensures multiset(Flatten(seq(|keys|, i requires 0 <= i < |keys| => Members(items, keyOf, keys[i])))) == multiset(items)
    decreases |items|
  {
    if items == [] {
      var parts := seq(|keys|, i requires 0 <= i < |keys| => Members(items, keyOf, keys[i]));
      FlattenEmpty(parts);
    } else {
      var front, last := items[..|items| - 1], items[|items| - 1];
      assert items == front + [last];
      assert forall x :: x in front ==> x in items;
      FlattenGroups(front, keyOf, keys);
      assert last in items && keyOf(last) in keys;
      var at :| 0 <= at < |keys| && keys[at] == keyOf(last);
      var old' := seq(|keys|, i requires 0 <= i < |keys| => Members(front, keyOf, keys[i]));
      var new' := seq(|keys|, i requires 0 <= i < |keys| => Members(items, keyOf, keys[i]));
      FlattenExtend(old', new', at, last);
    }
  }

  lemma {:induction false} FlattenEmpty<T>(parts: seq<seq<T>>)
    requires forall i :: 0 <= i < |parts| ==> parts[i] == []
    ensures Flatten(parts) == []
  {
    if parts != [] {
      FlattenEmpty(parts[..|parts| - 1]);
    }
  }

  lemma {:induction false} FlattenExtend<T>(before: seq<seq<T>>, after: seq<seq<T>>, at: nat, x: T)
    requires |before| == |after| && at < |before|
    requires after[at] == before[at] + [x]
    requires forall i :: 0 <= i < |before| && i != at ==> after[i] == before[i]
    ensures multiset(Flatten(after)) == multiset(Flatten(before)) + multiset{x}
  {
    var n := |before| - 1;
    if at == n {
      assert before[..n] == after[..n];
      assert multiset(after[n]) == multiset(before[n]) + multiset{x};
    } else {
      assert after[n] == before[n];
      FlattenExtend(before[..n], after[..n], at, x);
    }
  }

  /** Nothing is lost, invented or duplicated by a split. */
  lemma GroupByPermutes<T, K>(items: seq<T>, keyOf: T -> K)
    ensures multiset(Flatten(GroupBy(items, keyOf))) == multiset(items)
  {
    KeysFacts(items, keyOf);
    FlattenGroups(items, keyOf, KeysInOrder(items, keyOf));
  }

  /** The loop both split functions run. */
  method Group<T, K(==)>(items: seq<T>, keyOf: T -> K) returns (split: seq<seq<T>>)
    ensures split == GroupBy(items, keyOf)
  {
    var keys: seq<K> := [];
    var partitions: map<K, seq<T>> := map[];
    for n := 0 to |items|
      invariant keys == KeysInOrder(items[..n], keyOf)
      invariant forall k :: k in partitions <==> k in keys
      invariant forall k :: k in partitions ==> partitions[k] == Members(items[..n], keyOf, k)
    {
      var key := keyOf(items[n]);
      assert items[..n + 1][..n] == items[..n];
      if key !in partitions {
        keys := keys + [key];
        NoMembers(items[..n], keyOf, key);
        partitions := partitions[key := []];
      }
      partitions := partitions[key := partitions[key] + [items[n]]];
    }
    assert items[..|items|] == items;

    split := [];
    for i := 0 to |keys|
      invariant |split| == i
      invariant forall j :: 0 <= j < i ==> split[j] == Members(items, keyOf, keys[j])
    {
      split := split + [partitions[keys[i]]];
    }
  }

  lemma {:induction false} NoMembers<T, K>(items: seq<T>, keyOf: T -> K, key: K)
    requires key !in KeysInOrder(items, keyOf)
    ensures Members(items, keyOf, key) == []
  {
    if items != [] {
      NoMembers(items[..|items| - 1], keyOf, key);
    }
  }
}
