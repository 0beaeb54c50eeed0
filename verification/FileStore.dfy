/**
 * The on-disk store: an index in memory over one file per key. What is stored
 * is what the files hold; the index must agree with them after every operation
 * and be rebuilt from them on open. File operations are taken to work.
 */
module FileStore {
  import opened Text
  import opened CacheEntry
  import opened Recency

  /** What a file holds. A digest does not give the key back, so the key is in it too. */
  datatype Envelope = Envelope(key: string, entry: Entry)

  /** When a record stops being answered from, when it stops counting as fresh, and its file. */
  datatype FileInfo = FileInfo(expires: int, freshUntil: int, filename: string)

  type Records = seq<Item<FileInfo>>

  datatype State = State(order: Records, disk: map<string, Envelope>)

  /** How keys name files -- by digest -- and how much the store may hold. */
  datatype Layout = Layout(nameOf: string -> string, budget: nat)

  /** Two of these keys share a file. */
  ghost predicate Collides(layout: Layout, keys: set<string>) {
    exists a, b :: a in keys && b in keys && a != b && layout.nameOf(a) == layout.nameOf(b)
  }

  function RecordFor(filename: string, env: Envelope, size: nat, now: int): Item<FileInfo> {
    Item(env.key, env.entry.service, env.entry.path, size,
         FileInfo(now + Ttl(env.entry), now + env.entry.freshFor - Age(env.entry, now), filename))
  }

  function Filenames(items: Records): set<string> {
    set i | 0 <= i < |items| :: items[i].value.filename
  }

  // ---- What each operation does ----

  function AfterGet(s: State, key: string, now: int): State {
    if !Has(s.order, key) then s
    else
      var info := Find(s.order, key).value.value;
      if now > info.expires then State(RemoveKey(s.order, key), s.disk - {info.filename})
      else if info.filename !in s.disk then State(RemoveKey(s.order, key), s.disk)
      else State(ToFront(s.order, key), s.disk)
  }

  function Answer(s: State, key: string, now: int): Option<Entry> {
    var found := Find(s.order, key);
    if found.None? || now > found.value.value.expires || found.value.value.filename !in s.disk then None
    else Some(s.disk[found.value.value.filename].entry)
  }

  predicate Stored(layout: Layout, e: Entry) {
    Ttl(e) > 0 && Size(e) <= layout.budget
  }

  function Pushed(layout: Layout, s: State, key: string, e: Entry, now: int): Records {
    [RecordFor(layout.nameOf(key), Envelope(key, e), Size(e), now)] + RemoveKey(s.order, key)
  }

  /** An entry that cannot be stored leaves the one it would have replaced. */
  function AfterSet(layout: Layout, s: State, key: string, e: Entry, now: int): State {
    if !Stored(layout, e) then s else
      var pushed := Pushed(layout, s, key, e, now);
      var kept := Fit(pushed, layout.budget);
      State(kept, s.disk[layout.nameOf(key) := Envelope(key, e)] - Filenames(Displaced(layout, s, key, e, now)))
  }

  /** The records a set pushes out to make room, most recent first. */
  function Displaced(layout: Layout, s: State, key: string, e: Entry, now: int): Records {
    if !Stored(layout, e) then [] else
      var pushed := Pushed(layout, s, key, e, now);
      var kept := |Fit(pushed, layout.budget)|;
      if kept <= |pushed| then pushed[kept..] else []
  }

  /** How many of them were still within their fresh life by the index's own reckoning. */
  function FreshAmong(l: Records, now: int): (n: nat)
    ensures n <= |l|
  {
    if l == [] then 0 else FreshAmong(l[..|l| - 1], now) + if now < l[|l| - 1].value.freshUntil then 1 else 0
  }

  function AfterPurge(s: State, service: string, prefix: string): State {
    State(Unpurged(s.order, service, prefix), s.disk - Filenames(Matching(s.order, service, prefix)))
  }

  /** The index a new process builds, file by file, from those still able to answer. */
  function Restored(disk: map<string, Envelope>, listing: seq<string>, sizeOf: string -> nat, now: int): Records {
    if listing == [] then [] else
      var before := Restored(disk, listing[..|listing| - 1], sizeOf, now);
      var f := listing[|listing| - 1];
      if f in disk && Servable(disk[f].entry, now) then [RecordFor(f, disk[f], sizeOf(f), now)] + before else before
  }

  function Reopened(s: State, listing: seq<string>, sizeOf: string -> nat, now: int): State {
    State(Restored(s.disk, listing, sizeOf, now), map f | f in s.disk && Servable(s.disk[f].entry, now) :: s.disk[f])
  }

  datatype Op =
    | Get(key: string, now: int)
    | Set(key: string, entry: Entry, now: int)
    | Purge(service: string, prefix: string)
    | Reopen(listing: seq<string>, sizeOf: string -> nat, now: int)

  /** A directory listing names every file once. */
  ghost predicate Lists(listing: seq<string>, disk: map<string, Envelope>) {
    && (forall f :: f in disk <==> f in listing)
    && (forall i, j :: 0 <= i < j < |listing| ==> listing[i] != listing[j])
  }

  ghost predicate Enabled(s: State, op: Op) {
    op.Reopen? ==> Lists(op.listing, s.disk)
  }

  function After(layout: Layout, s: State, op: Op): State {
    match op
    case Get(key, now) => AfterGet(s, key, now)
    case Set(key, e, now) => AfterSet(layout, s, key, e, now)
    case Purge(service, prefix) => AfterPurge(s, service, prefix)
    case Reopen(listing, sizeOf, now) => Reopened(s, listing, sizeOf, now)
  }

  // ---- What is counted, and the times a record keeps ----

  /** What a set counts as evicted is what it drops from the index besides the key it sets, each record once. */
  lemma DisplacedAre(layout: Layout, s: State, key: string, e: Entry, now: int, x: Item<FileInfo>)
    requires UniqueKeys(s.order) && Stored(layout, e)
    ensures UniqueKeys(Displaced(layout, s, key, e, now))
    ensures x in Displaced(layout, s, key, e, now) <==> x in s.order && x.key != key && x !in AfterSet(layout, s, key, e, now).order
  {
    var pushed := Pushed(layout, s, key, e, now);
    RemoveKeyFacts(s.order, key);
    PushUnique(pushed[0], RemoveKey(s.order, key));
    FitLaw(pushed, layout.budget);
    FrontFits(pushed[0], RemoveKey(s.order, key), layout.budget);
    SplitApart(pushed, |Fit(pushed, layout.budget)|, x);
  }

  lemma {:induction false} FreshAmongCounts(l: Records, now: int)
    ensures FreshAmong(l, now) == |set i | 0 <= i < |l| && now < l[i].value.freshUntil|
  {
    var all := set i | 0 <= i < |l| && now < l[i].value.freshUntil;
    if l != [] {
      var n := |l| - 1;
      FreshAmongCounts(l[..n], now);
      var before := set i | 0 <= i < n && now < l[..n][i].value.freshUntil;
      forall i ensures i in all <==> i in before || (now < l[n].value.freshUntil && i == n) {
        assert 0 <= i < n ==> l[..n][i] == l[i];
      }
      CountOneMore(before, all, n, now < l[n].value.freshUntil);
    }
  }

  /** Indexed no earlier than it was stored, a record counts as fresh exactly while its entry is, and expires when its lifetime from then is over. */
  lemma RecordTimes(filename: string, env: Envelope, size: nat, indexed: int, t: int)
    requires env.entry.storedAt <= indexed <= t
    ensures var x := RecordFor(filename, env, size, indexed);
            && x.key == env.key && x.service == env.entry.service && x.path == env.entry.path && x.size == size && x.value.filename == filename
            && (t < x.value.freshUntil <==> env.entry.initialAge + (t - env.entry.storedAt) < env.entry.freshFor)
            && (t > x.value.expires <==> t - indexed > env.entry.freshFor + env.entry.staleWhileRevalidate - env.entry.initialAge && t > indexed)
  {
  }

  // ---- Index and files agree ----

  function ValueAt(layout: Layout, s: State, key: string): Option<Entry> {
    if layout.nameOf(key) in s.disk then Some(s.disk[layout.nameOf(key)].entry) else None
  }

  predicate Describes(layout: Layout, x: Item<FileInfo>, disk: map<string, Envelope>) {
    var f := layout.nameOf(x.key);
    && x.value.filename == f && f in disk
    && x.service == disk[f].entry.service && x.path == disk[f].entry.path
  }

  /** Over the keys in use, a key is indexed exactly when its file is there, and as its file says. */
  ghost predicate Agrees(layout: Layout, keys: set<string>, s: State) {
    && UniqueKeys(s.order)
    && (forall i :: 0 <= i < |s.order| ==> s.order[i].key in keys && Describes(layout, s.order[i], s.disk))
    && (forall f :: f in s.disk ==> f == layout.nameOf(s.disk[f].key) && Has(s.order, s.disk[f].key))
  }

  lemma FoundDescribes(layout: Layout, keys: set<string>, s: State, key: string)
    requires !Collides(layout, keys) && Agrees(layout, keys, s) && key in keys
    ensures Has(s.order, key) <==> layout.nameOf(key) in s.disk
    ensures Has(s.order, key) ==> Describes(layout, Find(s.order, key).value, s.disk) && Find(s.order, key).value.key == key
  {
    if layout.nameOf(key) in s.disk {
      var other := s.disk[layout.nameOf(key)].key;
      assert s.order[Position(s.order, other)].key == other;
      assert other == key;
    }
  }

  /** Enough to re-establish agreement, key by key. */
  lemma AgreesFrom(layout: Layout, keys: set<string>, s: State)
    requires UniqueKeys(s.order) && (forall i :: 0 <= i < |s.order| ==> s.order[i].key in keys)
    requires forall f :: f in s.disk ==> f == layout.nameOf(s.disk[f].key) && s.disk[f].key in keys
    requires forall key :: key in keys ==> (Has(s.order, key) <==> layout.nameOf(key) in s.disk)
    requires forall key :: key in keys && Has(s.order, key) ==> Describes(layout, Find(s.order, key).value, s.disk)
    ensures Agrees(layout, keys, s)
  {
    forall i | 0 <= i < |s.order| ensures Describes(layout, s.order[i], s.disk) {
      PositionIs(s.order, i);
      assert Has(s.order, s.order[i].key);
    }
  }

  /** The keys an index holds, and those its files belong to. */
  lemma KeysInUse(layout: Layout, keys: set<string>, s: State)
    requires Agrees(layout, keys, s)
    ensures forall k :: Has(s.order, k) ==> k in keys
    ensures forall f :: f in s.disk ==> s.disk[f].key in keys
  {
    forall k | Has(s.order, k) ensures k in keys {
      assert s.order[Position(s.order, k)].key == k;
    }
  }

  lemma HeldKeys(l: Records, keys: set<string>)
    requires UniqueKeys(l) && forall k :: Has(l, k) ==> k in keys
    ensures forall i :: 0 <= i < |l| ==> l[i].key in keys
  {
    forall i | 0 <= i < |l| ensures l[i].key in keys {
      PositionIs(l, i);
    }
  }

  lemma GetUnique(s: State, key: string, now: int)
    requires UniqueKeys(s.order)
    ensures UniqueKeys(AfterGet(s, key, now).order)
  {
    RemoveKeyFacts(s.order, key);
    if Has(s.order, key) {
      ToFrontFacts(s.order, Position(s.order, key));
    }
  }

  lemma GetKey(layout: Layout, keys: set<string>, s: State, key: string, now: int, k: string)
    requires !Collides(layout, keys) && Agrees(layout, keys, s) && Has(s.order, key) && key in keys && k in keys
    ensures var after := AfterGet(s, key, now);
            && (Has(after.order, k) <==> layout.nameOf(k) in after.disk)
            && (Has(after.order, k) ==> Describes(layout, Find(after.order, k).value, after.disk))
            && ValueAt(layout, after, k)
               == if k == key && now > Find(s.order, key).value.value.expires then None else ValueAt(layout, s, k)
  {
    FoundDescribes(layout, keys, s, key);
    FoundDescribes(layout, keys, s, k);
    FindRemove(s.order, key, k);
    FindToFront(s.order, key, k);
  }

  lemma GetHeld(s: State, key: string, now: int, keys: set<string>)
    requires UniqueKeys(s.order) && forall k :: Has(s.order, k) ==> k in keys
    ensures forall i :: 0 <= i < |AfterGet(s, key, now).order| ==> AfterGet(s, key, now).order[i].key in keys
  {
    GetUnique(s, key, now);
    forall k ensures Has(AfterGet(s, key, now).order, k) ==> Has(s.order, k) {
      FindRemove(s.order, key, k);
      if Has(s.order, key) { FindToFront(s.order, key, k); }
    }
    HeldKeys(AfterGet(s, key, now).order, keys);
  }

  lemma GetStep(layout: Layout, keys: set<string>, s: State, key: string, now: int)
    requires !Collides(layout, keys) && Agrees(layout, keys, s) && key in keys
    ensures Agrees(layout, keys, AfterGet(s, key, now))
    ensures forall k :: k in keys ==>
              ValueAt(layout, AfterGet(s, key, now), k)
              == if k == key && Has(s.order, key) && now > Find(s.order, key).value.value.expires then None else ValueAt(layout, s, k)
    ensures Answer(s, key, now) == ValueAt(layout, AfterGet(s, key, now), key)
  {
    FoundDescribes(layout, keys, s, key);
    if Has(s.order, key) {
      GetUnique(s, key, now);
      KeysInUse(layout, keys, s);
      GetHeld(s, key, now, keys);
      forall k | k in keys { GetKey(layout, keys, s, key, now, k); }
      AgreesFrom(layout, keys, AfterGet(s, key, now));
    }
  }

  /** Which files an eviction deletes: exactly those of the keys that no longer fit. */
  lemma EvictedFiles(layout: Layout, keys: set<string>, pushed: Records, key: string)
    requires !Collides(layout, keys) && UniqueKeys(pushed) && key in keys
    requires forall i :: 0 <= i < |pushed| ==> pushed[i].key in keys && pushed[i].value.filename == layout.nameOf(pushed[i].key)
    ensures |Fit(pushed, layout.budget)| <= |pushed|
    ensures layout.nameOf(key) in Filenames(pushed[|Fit(pushed, layout.budget)|..]) <==> Evicted(pushed, key, layout.budget)
  {
    var n := |Fit(pushed, layout.budget)|;
    FitLaw(pushed, layout.budget);
    var gone := pushed[n..];
    if Has(pushed, key) {
      var i := Position(pushed, key);
      FitKeeps(pushed, layout.budget, i);
      if i >= n { assert gone[i - n] == pushed[i]; }
    }
    if layout.nameOf(key) in Filenames(gone) {
      var j :| 0 <= j < |gone| && gone[j].value.filename == layout.nameOf(key);
      assert pushed[n + j] == gone[j] && pushed[n + j].key == key;
      PositionIs(pushed, n + j);
    }
  }

  lemma PushedFind(layout: Layout, s: State, key: string, e: Entry, now: int, k: string)
    requires UniqueKeys(s.order)
    ensures var pushed := Pushed(layout, s, key, e, now);
            UniqueKeys(pushed) && Find(pushed, k) == if k == key then Some(pushed[0]) else Find(s.order, k)
  {
    var x := RecordFor(layout.nameOf(key), Envelope(key, e), Size(e), now);
    var rest := RemoveKey(s.order, key);
    RemoveKeyUnique(s.order, key);
    FindRemove(s.order, key, key);
    FindRemove(s.order, key, k);
    PushUnique(x, rest);
    FindPush(x, rest, k);
  }

  lemma PushedFacts(layout: Layout, keys: set<string>, s: State, key: string, e: Entry, now: int)
    requires Agrees(layout, keys, s) && key in keys
    ensures var pushed := Pushed(layout, s, key, e, now);
            && UniqueKeys(pushed)
            && (forall i :: 0 <= i < |pushed| ==> pushed[i].key in keys && pushed[i].value.filename == layout.nameOf(pushed[i].key))
            && (forall k :: Find(pushed, k) == if k == key then Some(pushed[0]) else Find(s.order, k))
  {
    var pushed := Pushed(layout, s, key, e, now);
    PushedFind(layout, s, key, e, now, key);
    forall k ensures Find(pushed, k) == if k == key then Some(pushed[0]) else Find(s.order, k) {
      PushedFind(layout, s, key, e, now, k);
    }
    forall i | 0 <= i < |pushed| ensures pushed[i].key in keys && pushed[i].value.filename == layout.nameOf(pushed[i].key) {
      PositionIs(pushed, i);
      assert Find(pushed, pushed[i].key) == Some(pushed[i]);
      if pushed[i].key != key {
        assert s.order[Position(s.order, pushed[i].key)] == pushed[i];
      }
    }
  }

  lemma SetHeld(layout: Layout, keys: set<string>, s: State, key: string, e: Entry, now: int)
    requires Agrees(layout, keys, s) && Stored(layout, e) && key in keys
    ensures var after := AfterSet(layout, s, key, e, now);
            && UniqueKeys(after.order) && Total(after.order) <= layout.budget
            && (forall i :: 0 <= i < |after.order| ==> after.order[i].key in keys)
            && (forall f :: f in after.disk ==> f == layout.nameOf(after.disk[f].key) && after.disk[f].key in keys)
  {
    var after := AfterSet(layout, s, key, e, now);
    var pushed := Pushed(layout, s, key, e, now);
    PushedFacts(layout, keys, s, key, e, now);
    FitLaw(pushed, layout.budget);
    FindFit(pushed, layout.budget, key);
    KeysInUse(layout, keys, s);
    assert forall i :: 0 <= i < |after.order| ==> after.order[i] == pushed[i];
  }

  lemma SetStep(layout: Layout, keys: set<string>, s: State, key: string, e: Entry, now: int)
    requires !Collides(layout, keys) && Agrees(layout, keys, s) && Stored(layout, e) && key in keys
    ensures Agrees(layout, keys, AfterSet(layout, s, key, e, now))
    ensures Total(AfterSet(layout, s, key, e, now).order) <= layout.budget
    ensures forall k :: k in keys ==>
              ValueAt(layout, AfterSet(layout, s, key, e, now), k)
              == if k == key then Some(e)
                 else if Evicted(Pushed(layout, s, key, e, now), k, layout.budget) then None
                 else ValueAt(layout, s, k)
  {
    SetHeld(layout, keys, s, key, e, now);
    forall k | k in keys { SetKey(layout, keys, s, key, e, now, k); }
    AgreesFrom(layout, keys, AfterSet(layout, s, key, e, now));
  }

  lemma SetKey(layout: Layout, keys: set<string>, s: State, key: string, e: Entry, now: int, k: string)
    requires !Collides(layout, keys) && Agrees(layout, keys, s) && Stored(layout, e) && key in keys && k in keys
    ensures var after := AfterSet(layout, s, key, e, now);
            && (Has(after.order, k) <==> layout.nameOf(k) in after.disk)
            && (Has(after.order, k) ==> Describes(layout, Find(after.order, k).value, after.disk))
            && ValueAt(layout, after, k)
               == if k == key then Some(e)
                  else if Evicted(Pushed(layout, s, key, e, now), k, layout.budget) then None
                  else ValueAt(layout, s, k)
  {
    var pushed := Pushed(layout, s, key, e, now);
    PushedFacts(layout, keys, s, key, e, now);
    FrontFits(pushed[0], RemoveKey(s.order, key), layout.budget);
    NotEvicted(pushed, layout.budget);
    EvictedFiles(layout, keys, pushed, k);
    FindFit(pushed, layout.budget, k);
    FoundDescribes(layout, keys, s, k);
    assert layout.nameOf(k) == layout.nameOf(key) ==> k == key;
    assert Has(pushed, k) <==> Find(pushed, k).Some?;
    assert Has(Fit(pushed, layout.budget), k) <==> Find(Fit(pushed, layout.budget), k).Some?;
  }

  lemma NotEvicted(pushed: Records, budget: nat)
    requires |pushed| > 0 && |Fit(pushed, budget)| > 0
    ensures !Evicted(pushed, pushed[0].key, budget)
  {
    FitKeeps(pushed, budget, 0);
  }

  lemma {:induction false} MatchingAt(l: Records, service: string, prefix: string, i: nat) returns (j: nat)
    requires i < |Matching(l, service, prefix)|
    ensures j < |l| && l[j] == Matching(l, service, prefix)[i] && Purged(l[j], service, prefix)
  {
    if Purged(l[0], service, prefix) && i == 0 {
      j := 0;
    } else {
      var k := MatchingAt(l[1..], service, prefix, if Purged(l[0], service, prefix) then i - 1 else i);
      j := k + 1;
    }
  }

  lemma {:induction false} MatchingHas(l: Records, service: string, prefix: string, j: nat) returns (i: nat)
    requires j < |l| && Purged(l[j], service, prefix)
    ensures i < |Matching(l, service, prefix)| && Matching(l, service, prefix)[i] == l[j]
  {
    if j == 0 {
      i := 0;
    } else {
      var k := MatchingHas(l[1..], service, prefix, j - 1);
      i := if Purged(l[0], service, prefix) then k + 1 else k;
    }
  }

  lemma PurgedFiles(layout: Layout, keys: set<string>, s: State, service: string, prefix: string, key: string)
    requires !Collides(layout, keys) && Agrees(layout, keys, s) && key in keys
    ensures layout.nameOf(key) in Filenames(Matching(s.order, service, prefix)) <==>
            Has(s.order, key) && Purged(Find(s.order, key).value, service, prefix)
  {
    var gone := Matching(s.order, service, prefix);
    if layout.nameOf(key) in Filenames(gone) {
      var i :| 0 <= i < |gone| && gone[i].value.filename == layout.nameOf(key);
      var j := MatchingAt(s.order, service, prefix, i);
      PositionIs(s.order, j);
      assert Describes(layout, s.order[j], s.disk) && s.order[j].key == key;
    }
    if Has(s.order, key) && Purged(Find(s.order, key).value, service, prefix) {
      var i := MatchingHas(s.order, service, prefix, Position(s.order, key));
      assert Describes(layout, gone[i], s.disk);
    }
  }

  lemma PurgeKey(layout: Layout, keys: set<string>, s: State, service: string, prefix: string, k: string)
    requires !Collides(layout, keys) && Agrees(layout, keys, s) && k in keys
    ensures var after := AfterPurge(s, service, prefix);
            && (Has(after.order, k) <==> layout.nameOf(k) in after.disk)
            && (Has(after.order, k) ==> Has(s.order, k) && Describes(layout, Find(after.order, k).value, after.disk))
            && (layout.nameOf(k) in after.disk <==> layout.nameOf(k) in s.disk && !Covers(s.disk[layout.nameOf(k)].entry, service, prefix))
  {
    PurgedFiles(layout, keys, s, service, prefix, k);
    FindUnpurged(s.order, service, prefix, k);
    FoundDescribes(layout, keys, s, k);
  }

  lemma PurgeStep(layout: Layout, keys: set<string>, s: State, service: string, prefix: string)
    requires !Collides(layout, keys) && Agrees(layout, keys, s)
    ensures Agrees(layout, keys, AfterPurge(s, service, prefix))
    ensures forall k :: k in keys ==>
              ValueAt(layout, AfterPurge(s, service, prefix), k)
              == if ValueAt(layout, s, k).Some? && Covers(ValueAt(layout, s, k).value, service, prefix) then None else ValueAt(layout, s, k)
  {
    var after := AfterPurge(s, service, prefix);
    UnpurgedFacts(s.order, service, prefix);
    KeysInUse(layout, keys, s);
    forall k ensures Has(after.order, k) ==> Has(s.order, k) {
      FindUnpurged(s.order, service, prefix, k);
    }
    HeldKeys(after.order, keys);
    forall k | k in keys { PurgeKey(layout, keys, s, service, prefix, k); }
    AgreesFrom(layout, keys, after);
  }

  predicate Covers(e: Entry, service: string, prefix: string) {
    e.service == service && HasPrefix(e.path, prefix)
  }

  // ---- Reopening ----

  /** The rebuilt index has a key exactly when a listed file of it can still answer. */
  lemma {:induction false} RestoredFacts(layout: Layout, disk: map<string, Envelope>, listing: seq<string>, sizeOf: string -> nat, now: int)
    requires forall f :: f in disk ==> f == layout.nameOf(disk[f].key)
    requires forall i, j :: 0 <= i < j < |listing| ==> listing[i] != listing[j]
    ensures var l := Restored(disk, listing, sizeOf, now);
            && UniqueKeys(l)
            && (forall k :: Has(l, k) <==> layout.nameOf(k) in listing && Holds(layout, disk, k) && Servable(disk[layout.nameOf(k)].entry, now))
            && (forall k :: Has(l, k) ==> var f := layout.nameOf(k); f in disk && Find(l, k) == Some(RecordFor(f, disk[f], sizeOf(f), now)))
  {
    var l := Restored(disk, listing, sizeOf, now);
    if listing == [] {
      assert forall k :: !Has(l, k);
    } else {
      var front, f := listing[..|listing| - 1], listing[|listing| - 1];
      assert listing == front + [f];
      RestoredFacts(layout, disk, front, sizeOf, now);
      var before := Restored(disk, front, sizeOf, now);
      assert f !in front;
      if f in disk && Servable(disk[f].entry, now) {
        var x := RecordFor(f, disk[f], sizeOf(f), now);
        assert !Has(before, x.key);
        PushUnique(x, before);
        forall k ensures Has(l, k) <==> k == x.key || Has(before, k)
          ensures Find(l, k) == if k == x.key then Some(x) else Find(before, k)
        {
          FindPush(x, before, k);
        }
      }
    }
  }

  /** The key's file is there and is its own. */
  predicate Holds(layout: Layout, disk: map<string, Envelope>, key: string) {
    layout.nameOf(key) in disk && disk[layout.nameOf(key)].key == key
  }

  /** Reopening keeps exactly the entries that can still answer, with the values they had. */
  lemma ReopenStep(layout: Layout, keys: set<string>, s: State, listing: seq<string>, sizeOf: string -> nat, now: int)
    requires !Collides(layout, keys) && Agrees(layout, keys, s) && Lists(listing, s.disk)
    ensures Agrees(layout, keys, Reopened(s, listing, sizeOf, now))
    ensures forall k :: k in keys ==>
              ValueAt(layout, Reopened(s, listing, sizeOf, now), k)
              == if ValueAt(layout, s, k).Some? && !Servable(ValueAt(layout, s, k).value, now) then None else ValueAt(layout, s, k)
  {
    KeysInUse(layout, keys, s);
    RestoredAgrees(layout, keys, s.disk, listing, sizeOf, now);
    assert Reopened(s, listing, sizeOf, now) == Reopened(State([], s.disk), listing, sizeOf, now);
  }

  // ---- Every run ----

  ghost predicate IsRun(layout: Layout, states: seq<State>, ops: seq<Op>) {
    && |states| == |ops| + 1 && states[0] == State([], map[])
    && forall i :: 0 <= i < |ops| ==> Enabled(states[i], ops[i]) && states[i + 1] == After(layout, states[i], ops[i])
  }

  predicate Stores(layout: Layout, op: Op, key: string) {
    op.Set? && op.key == key && Stored(layout, op.entry)
  }

  /** The ways a stored entry goes: expired when asked for, evicted, purged, or unservable when reopened. */
  predicate Drops(layout: Layout, s: State, op: Op, key: string)
    requires ValueAt(layout, s, key).Some?
  {
    var e := ValueAt(layout, s, key).value;
    match op
    case Get(k, now) => k == key && Has(s.order, key) && now > Find(s.order, key).value.value.expires
    case Set(k, new', now) => k != key && Stored(layout, new') && Evicted(Pushed(layout, s, k, new', now), key, layout.budget)
    case Purge(service, prefix) => Covers(e, service, prefix)
    case Reopen(_, _, now) => !Servable(e, now)
  }

  /** The plain reading of a key's history across restarts. */
  function Expected(layout: Layout, states: seq<State>, ops: seq<Op>, at: nat, key: string): Option<Entry>
    requires at <= |ops| && |states| == |ops| + 1
  {
    if at == 0 then None else
      var s, op := states[at - 1], ops[at - 1];
      if Stores(layout, op, key) then Some(op.entry)
      else if ValueAt(layout, s, key).Some? && Drops(layout, s, op, key) then None
      else Expected(layout, states, ops, at - 1, key)
  }

  lemma StepExpected(layout: Layout, keys: set<string>, s: State, op: Op, key: string)
    requires !Collides(layout, keys) && Agrees(layout, keys, s) && Enabled(s, op) && KeysOf(op) <= keys && key in keys
    ensures Agrees(layout, keys, After(layout, s, op))
    ensures ValueAt(layout, After(layout, s, op), key)
            == if Stores(layout, op, key) then Some(op.entry)
               else if ValueAt(layout, s, key).Some? && Drops(layout, s, op, key) then None
               else ValueAt(layout, s, key)
  {
    FoundDescribes(layout, keys, s, key);
    match op
    case Get(k, now) => GetStep(layout, keys, s, k, now);
    case Set(k, e, now) =>
      if Stored(layout, e) {
        SetStep(layout, keys, s, k, e, now);
        PushedFacts(layout, keys, s, k, e, now);
      }
    case Purge(service, prefix) => PurgeStep(layout, keys, s, service, prefix);
    case Reopen(listing, sizeOf, now) => ReopenStep(layout, keys, s, listing, sizeOf, now);
  }

  function KeysOf(op: Op): set<string> {
    if op.Get? || op.Set? then {op.key} else {}
  }

  /** Every key a run asks for or stores under. */
  function RunKeys(ops: seq<Op>): (keys: set<string>)
    ensures forall i :: 0 <= i < |ops| ==> KeysOf(ops[i]) <= keys
  {
    if ops == [] then {} else RunKeys(ops[..|ops| - 1]) + KeysOf(ops[|ops| - 1])
  }

  lemma {:induction false} HoldsAmong(layout: Layout, keys: set<string>, states: seq<State>, ops: seq<Op>, at: nat, key: string)
    requires !Collides(layout, keys) && RunKeys(ops) <= keys && key in keys && IsRun(layout, states, ops) && at < |states|
    ensures Agrees(layout, keys, states[at])
    ensures ValueAt(layout, states[at], key) == Expected(layout, states, ops, at, key)
  {
    if at > 0 {
      HoldsAmong(layout, keys, states, ops, at - 1, key);
      StepExpected(layout, keys, states[at - 1], ops[at - 1], key);
    }
  }

  /**
   * Over every run with any number of restarts, a key holds the last entry stored
   * under it unless that expired, was evicted or was purged since: nothing
   * servable is lost by reopening, and nothing dropped or replaced comes back --
   * or two keys the run used share a digest.
   */
  lemma HoldsLastStored(layout: Layout, states: seq<State>, ops: seq<Op>, at: nat, key: string)
    requires IsRun(layout, states, ops) && at < |states|
    ensures || Collides(layout, RunKeys(ops) + {key})
            || (&& Agrees(layout, RunKeys(ops) + {key}, states[at])
                && ValueAt(layout, states[at], key) == Expected(layout, states, ops, at, key))
  {
    var keys := RunKeys(ops) + {key};
    if !Collides(layout, keys) {
      HoldsAmong(layout, keys, states, ops, at, key);
    }
  }

  // ---- Least recently used out first, across restarts ----

  /** A use: the operation, and within a reopening the place in the listing. */
  datatype Use = Use(at: int, place: int)

  predicate Later(a: Use, b: Use) {
    a.at > b.at || (a.at == b.at && a.place > b.place)
  }

  /** Where a file stands in a listing. */
  function Place(listing: seq<string>, f: string): (i: nat)
    ensures i <= |listing| && (i < |listing| ==> listing[i] == f) && forall j :: 0 <= j < i ==> listing[j] != f
  {
    if listing == [] || listing[0] == f then 0 else 1 + Place(listing[1..], f)
  }

  /** The operation stores under the key, or is answered from it. */
  predicate Uses(layout: Layout, s: State, op: Op, key: string) {
    Stores(layout, op, key) || (op.Get? && op.key == key && Answer(s, key, op.now).Some?)
  }

  /** When a key was last stored, answered from or found again, read from the history and its answers. */
  function LastUse(layout: Layout, states: seq<State>, ops: seq<Op>, at: nat, key: string): (u: Use)
    requires at <= |ops| && |states| == |ops| + 1
    ensures u.at < at
  {
    if at == 0 then Use(-1, 0)
    else if ops[at - 1].Reopen? && layout.nameOf(key) in ops[at - 1].listing then Use(at - 1, Place(ops[at - 1].listing, layout.nameOf(key)))
    else if Uses(layout, states[at - 1], ops[at - 1], key) then Use(at - 1, 0)
    else LastUse(layout, states, ops, at - 1, key)
  }

  function Newer(layout: Layout, states: seq<State>, ops: seq<Op>, at: nat): (string, string) -> bool
    requires at <= |ops| && |states| == |ops| + 1
  {
    (a: string, b: string) => Later(LastUse(layout, states, ops, at, a), LastUse(layout, states, ops, at, b))
  }

  /** An operation other than a reopening leaves the order of the keys it does not use, and makes the one it uses newest. */
  lemma UseStep(layout: Layout, states: seq<State>, ops: seq<Op>, at: nat, s: State, op: Op, l: Records, used: string)
    requires 0 < at <= |ops| && |states| == |ops| + 1 && s == states[at - 1] && op == ops[at - 1] && !op.Reopen?
    requires InOrder(l, Newer(layout, states, ops, at - 1)) && forall i :: 0 <= i < |l| ==> l[i].key != used
    requires forall key :: key != used ==> !Uses(layout, s, op, key)
    ensures InOrder(l, Newer(layout, states, ops, at))
    ensures Uses(layout, s, op, used) ==> forall i :: 0 <= i < |l| ==> Newer(layout, states, ops, at)(used, l[i].key)
  {
    InOrderAgain(l, Newer(layout, states, ops, at - 1), Newer(layout, states, ops, at));
  }

  lemma NoUseStep(layout: Layout, states: seq<State>, ops: seq<Op>, at: nat, s: State, op: Op, l: Records)
    requires 0 < at <= |ops| && |states| == |ops| + 1 && s == states[at - 1] && op == ops[at - 1] && !op.Reopen?
    requires InOrder(l, Newer(layout, states, ops, at - 1)) && forall key :: !Uses(layout, s, op, key)
    ensures InOrder(l, Newer(layout, states, ops, at))
  {
    InOrderAgain(l, Newer(layout, states, ops, at - 1), Newer(layout, states, ops, at));
  }

  lemma PushedInOrder(layout: Layout, states: seq<State>, ops: seq<Op>, at: nat, s: State, op: Op)
    requires 0 < at <= |ops| && |states| == |ops| + 1 && s == states[at - 1] && op == ops[at - 1]
    requires op.Set? && Stored(layout, op.entry) && UniqueKeys(s.order) && InOrder(s.order, Newer(layout, states, ops, at - 1))
    ensures InOrder(Pushed(layout, s, op.key, op.entry, op.now), Newer(layout, states, ops, at))
  {
    var rest := RemoveKey(s.order, op.key);
    InOrderRemove(s.order, op.key, Newer(layout, states, ops, at - 1));
    WithoutKey(s.order, op.key);
    UseStep(layout, states, ops, at, s, op, rest, op.key);
    InOrderPush(RecordFor(layout.nameOf(op.key), Envelope(op.key, op.entry), Size(op.entry), op.now), rest, Newer(layout, states, ops, at));
  }

  lemma GetInOrder(layout: Layout, states: seq<State>, ops: seq<Op>, at: nat, s: State, op: Op)
    requires 0 < at <= |ops| && |states| == |ops| + 1 && s == states[at - 1] && op == ops[at - 1]
    requires op.Get? && UniqueKeys(s.order) && InOrder(s.order, Newer(layout, states, ops, at - 1))
    ensures InOrder(AfterGet(s, op.key, op.now).order, Newer(layout, states, ops, at))
  {
    InOrderRemove(s.order, op.key, Newer(layout, states, ops, at - 1));
    if Answer(s, op.key, op.now).Some? {
      WithoutKey(s.order, op.key);
      UseStep(layout, states, ops, at, s, op, RemoveKey(s.order, op.key), op.key);
      InOrderPush(s.order[Position(s.order, op.key)], RemoveKey(s.order, op.key), Newer(layout, states, ops, at));
    } else {
      NoUseStep(layout, states, ops, at, s, op, AfterGet(s, op.key, op.now).order);
    }
  }

  function LaterListed(layout: Layout, listing: seq<string>): (string, string) -> bool {
    (a: string, b: string) => Place(listing, layout.nameOf(a)) > Place(listing, layout.nameOf(b))
  }

  /** A rebuilt index has the files listed last in front. */
  lemma {:induction false} RestoredInOrder(layout: Layout, disk: map<string, Envelope>, listing: seq<string>, n: nat, sizeOf: string -> nat, now: int)
    requires n <= |listing| && Lists(listing, disk) && forall f :: f in disk ==> f == layout.nameOf(disk[f].key)
    ensures InOrder(Restored(disk, listing[..n], sizeOf, now), LaterListed(layout, listing))
  {
    if n > 0 {
      RestoredInOrder(layout, disk, listing, n - 1, sizeOf, now);
      assert listing[n - 1] in listing;
      RestoreStep(disk, listing, n - 1, sizeOf, now);
      RestoredEarlier(layout, disk, listing, n - 1, sizeOf, now);
      NextRestored(layout, disk, listing, n - 1, sizeOf(listing[n - 1]), now, Restored(disk, listing[..n - 1], sizeOf, now));
    }
  }

  lemma NextRestored(layout: Layout, disk: map<string, Envelope>, listing: seq<string>, n: nat, size: nat, now: int, before: Records)
    requires n < |listing| && listing[n] in disk && InOrder(before, LaterListed(layout, listing))
    requires forall i :: 0 <= i < |before| ==> LaterListed(layout, listing)(disk[listing[n]].key, before[i].key)
    ensures InOrder([RecordFor(listing[n], disk[listing[n]], size, now)] + before, LaterListed(layout, listing))
  {
    InOrderPush(RecordFor(listing[n], disk[listing[n]], size, now), before, LaterListed(layout, listing));
  }

  lemma RestoredEarlier(layout: Layout, disk: map<string, Envelope>, listing: seq<string>, n: nat, sizeOf: string -> nat, now: int)
    requires n < |listing| && listing[n] in disk && forall f :: f in disk ==> f == layout.nameOf(disk[f].key)
    requires forall i, j :: 0 <= i < j < |listing| ==> listing[i] != listing[j]
    ensures var before := Restored(disk, listing[..n], sizeOf, now);
            forall i :: 0 <= i < |before| ==> LaterListed(layout, listing)(disk[listing[n]].key, before[i].key)
  {
    var before := Restored(disk, listing[..n], sizeOf, now);
    RestoredFacts(layout, disk, listing[..n], sizeOf, now);
    forall i | 0 <= i < |before| ensures LaterListed(layout, listing)(disk[listing[n]].key, before[i].key) {
      PositionIs(before, i);
      assert Has(before, before[i].key);
      ListedEarlier(listing, n, layout.nameOf(before[i].key));
    }
  }

  lemma ListedEarlier(listing: seq<string>, n: nat, f: string)
    requires n < |listing| && f in listing[..n] && forall i, j :: 0 <= i < j < |listing| ==> listing[i] != listing[j]
    ensures Place(listing, f) < n && Place(listing, listing[n]) == n
  {
    var i :| 0 <= i < n && listing[..n][i] == f;
    assert listing[i] == f;
  }

  lemma RestoredAreListed(layout: Layout, disk: map<string, Envelope>, listing: seq<string>, sizeOf: string -> nat, now: int)
    requires Lists(listing, disk) && forall f :: f in disk ==> f == layout.nameOf(disk[f].key)
    ensures var l := Restored(disk, listing, sizeOf, now);
            forall i :: 0 <= i < |l| ==> layout.nameOf(l[i].key) in listing
  {
    var l := Restored(disk, listing, sizeOf, now);
    RestoredFacts(layout, disk, listing, sizeOf, now);
    forall i | 0 <= i < |l| ensures layout.nameOf(l[i].key) in listing {
      PositionIs(l, i);
      assert Has(l, l[i].key);
    }
  }

  lemma ReopenedAgain(layout: Layout, states: seq<State>, ops: seq<Op>, at: nat, op: Op, l: Records)
    requires 0 < at <= |ops| && |states| == |ops| + 1 && op == ops[at - 1] && op.Reopen?
    requires InOrder(l, LaterListed(layout, op.listing)) && forall i :: 0 <= i < |l| ==> layout.nameOf(l[i].key) in op.listing
    ensures InOrder(l, Newer(layout, states, ops, at))
  {
    forall i, j | 0 <= i < j < |l| ensures Newer(layout, states, ops, at)(l[i].key, l[j].key) {
      assert LaterListed(layout, op.listing)(l[i].key, l[j].key);
    }
  }

  lemma RestoredWhole(layout: Layout, disk: map<string, Envelope>, listing: seq<string>, sizeOf: string -> nat, now: int) returns (l: Records)
    requires Lists(listing, disk) && forall f :: f in disk ==> f == layout.nameOf(disk[f].key)
    ensures l == Restored(disk, listing, sizeOf, now) && InOrder(l, LaterListed(layout, listing))
    ensures forall i :: 0 <= i < |l| ==> layout.nameOf(l[i].key) in listing
  {
    RestoredInOrder(layout, disk, listing, |listing|, sizeOf, now);
    assert listing[..|listing|] == listing;
    RestoredAreListed(layout, disk, listing, sizeOf, now);
    l := Restored(disk, listing, sizeOf, now);
  }

  lemma ReopenInOrder(layout: Layout, states: seq<State>, ops: seq<Op>, at: nat, s: State, op: Op)
    requires 0 < at <= |ops| && |states| == |ops| + 1 && op == ops[at - 1]
    requires op.Reopen? && Lists(op.listing, s.disk) && forall f :: f in s.disk ==> f == layout.nameOf(s.disk[f].key)
    ensures InOrder(Reopened(s, op.listing, op.sizeOf, op.now).order, Newer(layout, states, ops, at))
  {
    var l := RestoredWhole(layout, s.disk, op.listing, op.sizeOf, op.now);
    ReopenedAgain(layout, states, ops, at, op, l);
  }

  lemma {:induction false} InOrderAmong(layout: Layout, states: seq<State>, ops: seq<Op>, at: nat)
    requires !Collides(layout, RunKeys(ops)) && IsRun(layout, states, ops) && at <= |ops|
    ensures InOrder(states[at].order, Newer(layout, states, ops, at))
  {
    if at > 0 {
      InOrderAmong(layout, states, ops, at - 1);
      RunAgrees(layout, states, ops, at - 1);
      var s, op := states[at - 1], ops[at - 1];
      match op
      case Get(key, now) => GetInOrder(layout, states, ops, at, s, op);
      case Set(key, e, now) =>
        if Stored(layout, e) {
          PushedInOrder(layout, states, ops, at, s, op);
          InOrderFit(Pushed(layout, s, key, e, now), layout.budget, Newer(layout, states, ops, at));
        } else {
          NoUseStep(layout, states, ops, at, s, op, s.order);
        }
      case Purge(service, prefix) =>
        InOrderUnpurged(s.order, service, prefix, Newer(layout, states, ops, at - 1));
        NoUseStep(layout, states, ops, at, s, op, AfterPurge(s, service, prefix).order);
      case Reopen(_, _, _) => ReopenInOrder(layout, states, ops, at, s, op);
    }
  }

  /** Over every run the index is strictly in order of last use -- or two keys the run used share a digest. */
  lemma ListedByUse(layout: Layout, states: seq<State>, ops: seq<Op>, at: nat)
    requires IsRun(layout, states, ops) && at <= |ops|
    ensures Collides(layout, RunKeys(ops)) || InOrder(states[at].order, Newer(layout, states, ops, at))
  {
    if !Collides(layout, RunKeys(ops)) {
      InOrderAmong(layout, states, ops, at);
    }
  }

  /** So every record a set pushes out was last used before every record it leaves. */
  lemma EvictsLeastRecentlyUsed(layout: Layout, states: seq<State>, ops: seq<Op>, at: nat, gone: string, kept: string)
    requires IsRun(layout, states, ops) && at < |ops| && ops[at].Set? && gone != ops[at].key
    requires Has(states[at].order, gone) && !Has(states[at + 1].order, gone) && Has(states[at + 1].order, kept)
    ensures Collides(layout, RunKeys(ops)) || Later(LastUse(layout, states, ops, at + 1, kept), LastUse(layout, states, ops, at + 1, gone))
  {
    if !Collides(layout, RunKeys(ops)) {
      var s, op := states[at], ops[at];
      InOrderAmong(layout, states, ops, at);
      RunAgrees(layout, states, ops, at);
      PushedInOrder(layout, states, ops, at + 1, s, op);
      PushedFind(layout, s, op.key, op.entry, op.now, gone);
      var pushed := Pushed(layout, s, op.key, op.entry, op.now);
      assert Has(pushed, gone) <==> Find(pushed, gone).Some?;
      OldestGo(pushed, layout.budget, Newer(layout, states, ops, at + 1), gone, kept);
    }
  }

  // ---- The store's own expiry against the serve gate ----

  /**
   * A record indexed at `indexed` never expires an entry the serve gate still
   * accepts, exactly when the entry is dated no later than one tick after it: the
   * store waits for the clock to pass the expiry, so that tick is free.
   */
  lemma ExpirySafeIff(e: Entry, indexed: int)
    requires Ttl(e) > 0
    ensures (forall now :: now > indexed + Ttl(e) ==> !Servable(e, now)) <==> e.storedAt <= indexed + 1
  {
    if e.storedAt > indexed + 1 {
      var now := indexed + Ttl(e) + 1;
      assert Servable(e, now);
    }
  }

  /** No indexed record expires before its entry stops being servable. */
  ghost predicate ExpiresLate(layout: Layout, s: State) {
    forall k :: Has(s.order, k) && layout.nameOf(k) in s.disk ==>
      Find(s.order, k).value.value.expires >= s.disk[layout.nameOf(k)].entry.storedAt + Ttl(s.disk[layout.nameOf(k)].entry)
  }

  /** The clock an operation read is not before an entry it indexes was stored. */
  ghost predicate Timely(s: State, op: Op) {
    && (op.Set? ==> op.entry.storedAt <= op.now)
    && (op.Reopen? ==> forall f :: f in s.disk ==> s.disk[f].entry.storedAt <= op.now)
  }

  lemma StepExpiresLate(layout: Layout, keys: set<string>, s: State, op: Op)
    requires !Collides(layout, keys) && Agrees(layout, keys, s) && Enabled(s, op) && KeysOf(op) <= keys
    requires ExpiresLate(layout, s) && Timely(s, op)
    ensures ExpiresLate(layout, After(layout, s, op))
  {
    var after := After(layout, s, op);
    if op.Reopen? {
      RestoredFacts(layout, s.disk, op.listing, op.sizeOf, op.now);
    } else {
      forall k | Has(after.order, k) && layout.nameOf(k) in after.disk
        ensures Find(after.order, k).value.value.expires >= after.disk[layout.nameOf(k)].entry.storedAt + Ttl(after.disk[layout.nameOf(k)].entry)
      {
        AfterKey(layout, keys, s, op, k);
        KeptRecord(layout, keys, s, op, k);
      }
    }
  }

  /** A key indexed after an operation is one of those in use. */
  lemma AfterKey(layout: Layout, keys: set<string>, s: State, op: Op, k: string)
    requires !Collides(layout, keys) && Agrees(layout, keys, s) && Enabled(s, op) && KeysOf(op) <= keys
    requires Has(After(layout, s, op).order, k)
    ensures k in keys
  {
    match op
    case Get(key, now) => GetStep(layout, keys, s, key, now); KeysInUse(layout, keys, AfterGet(s, key, now));
    case Set(key, e, now) =>
      if Stored(layout, e) { SetStep(layout, keys, s, key, e, now); }
      KeysInUse(layout, keys, AfterSet(layout, s, key, e, now));
    case Purge(service, prefix) => PurgeStep(layout, keys, s, service, prefix); KeysInUse(layout, keys, AfterPurge(s, service, prefix));
    case Reopen(listing, sizeOf, now) =>
      ReopenStep(layout, keys, s, listing, sizeOf, now);
      KeysInUse(layout, keys, Reopened(s, listing, sizeOf, now));
  }

  /** A record present after an operation other than a reopen is the one before, or the one just set. */
  lemma KeptRecord(layout: Layout, keys: set<string>, s: State, op: Op, k: string)
    requires !Collides(layout, keys) && Agrees(layout, keys, s) && Enabled(s, op) && KeysOf(op) <= keys && k in keys
    requires !op.Reopen? && Has(After(layout, s, op).order, k)
    ensures var after := After(layout, s, op);
            var f := layout.nameOf(k);
            || (Stores(layout, op, k) && f in after.disk && after.disk[f].entry == op.entry && Find(after.order, k).value.value.expires == op.now + Ttl(op.entry))
            || (Has(s.order, k) && Find(after.order, k) == Find(s.order, k) && f in s.disk && f in after.disk && after.disk[f].entry == s.disk[f].entry)
  {
    StepExpected(layout, keys, s, op, k);
    FoundDescribes(layout, keys, s, k);
    FoundDescribes(layout, keys, After(layout, s, op), k);
    match op
    case Get(key, now) =>
      FindRemove(s.order, key, k);
      if Has(s.order, key) { FindToFront(s.order, key, k); }
    case Set(key, e, now) =>
      if Stored(layout, e) {
        PushedFacts(layout, keys, s, key, e, now);
        FindFit(Pushed(layout, s, key, e, now), layout.budget, k);
      }
    case Purge(service, prefix) => FindUnpurged(s.order, service, prefix, k);
    case Reopen(_, _, _) =>
  }

  lemma {:induction false} RunExpiresLate(layout: Layout, states: seq<State>, ops: seq<Op>, at: nat)
    requires !Collides(layout, RunKeys(ops)) && IsRun(layout, states, ops) && at < |states|
    requires forall i :: 0 <= i < at ==> Timely(states[i], ops[i])
    ensures ExpiresLate(layout, states[at])
  {
    if at > 0 {
      RunExpiresLate(layout, states, ops, at - 1);
      RunAgrees(layout, states, ops, at - 1);
      StepExpiresLate(layout, RunKeys(ops), states[at - 1], ops[at - 1]);
    }
  }

  lemma {:induction false} RunAgrees(layout: Layout, states: seq<State>, ops: seq<Op>, at: nat)
    requires !Collides(layout, RunKeys(ops)) && IsRun(layout, states, ops) && at < |states|
    ensures Agrees(layout, RunKeys(ops), states[at])
  {
    if at > 0 {
      var keys := RunKeys(ops);
      RunAgrees(layout, states, ops, at - 1);
      StepAgrees(layout, keys, states[at - 1], ops[at - 1]);
    }
  }

  lemma StepAgrees(layout: Layout, keys: set<string>, s: State, op: Op)
    requires !Collides(layout, keys) && Agrees(layout, keys, s) && Enabled(s, op) && KeysOf(op) <= keys
    ensures Agrees(layout, keys, After(layout, s, op))
  {
    match op
    case Get(key, now) => GetStep(layout, keys, s, key, now);
    case Set(key, e, now) => if Stored(layout, e) { SetStep(layout, keys, s, key, e, now); }
    case Purge(service, prefix) => PurgeStep(layout, keys, s, service, prefix);
    case Reopen(listing, sizeOf, now) => ReopenStep(layout, keys, s, listing, sizeOf, now);
  }

  /**
   * While the clock does not precede what it dates, whatever a lookup throws away
   * is something the serve gate would refuse -- or two keys share a digest.
   */
  lemma LookupDropsOnlyUnservable(layout: Layout, states: seq<State>, ops: seq<Op>, at: nat)
    requires IsRun(layout, states, ops) && at < |ops|
    requires forall i :: 0 <= i < at ==> Timely(states[i], ops[i])
    requires ops[at].Get? && ValueAt(layout, states[at], ops[at].key).Some? && Drops(layout, states[at], ops[at], ops[at].key)
    ensures Collides(layout, RunKeys(ops)) || !Servable(ValueAt(layout, states[at], ops[at].key).value, ops[at].now)
  {
    if !Collides(layout, RunKeys(ops)) {
      RunExpiresLate(layout, states, ops, at);
      ServableUntilTtl(ValueAt(layout, states[at], ops[at].key).value, ops[at].now);
    }
  }

  // ---- The store itself ----

  class FileCacheStore {
    const layout: Layout
    const index: RecencyIndex<FileInfo>
    var disk: map<string, Envelope>
    var evictedFresh: nat
    var evictedStale: nat
    var oversized: nat

    function AsState(): State
      reads this, index
    {
      State(index.order, disk)
    }

    ghost predicate Valid()
      reads this, index
    {
      index.Valid()
    }

    /** Opens a directory: drops what can answer nothing, indexes the rest. */
    constructor (layout: Layout, files: map<string, Envelope>, listing: seq<string>, sizeOf: string -> nat, now: int)
      requires Lists(listing, files)
      requires forall f :: f in files ==> f == layout.nameOf(files[f].key)
      ensures fresh(index) && this.layout == layout && Valid()
      ensures AsState() == Reopened(State([], files), listing, sizeOf, now)
    {
      this.layout := layout;
      index := new RecencyIndex();
      disk := files;
      evictedFresh, evictedStale, oversized := 0, 0, 0;
      new;
      RebuildIndex(listing, sizeOf, now);
    }

    method RebuildIndex(listing: seq<string>, sizeOf: string -> nat, now: int)
      requires index.Valid() && index.order == [] && Lists(listing, disk)
      requires forall f :: f in disk ==> f == layout.nameOf(disk[f].key)
      modifies this`disk, index
      ensures index.Valid() && AsState() == Reopened(State([], old(disk)), listing, sizeOf, now)
    {
      ghost var files := disk;
      assert disk == Sifted(files, [], now);
      for i := 0 to |listing|
        invariant index.Valid() && index.order == Restored(files, listing[..i], sizeOf, now)
        invariant disk == Sifted(files, listing[..i], now)
      {
        var f := listing[i];
        NotYetRestored(layout, index, files, listing, i, sizeOf, now);
        SiftStep(files, listing, i, now);
        RestoreStep(files, listing, i, sizeOf, now);
        RestoreFile(f, sizeOf(f), now);
      }
      assert listing[..|listing|] == listing;
      SiftedAll(files, listing, now);
    }

    /** One file of the listing: deleted when it can answer nothing, indexed otherwise. */
    method RestoreFile(f: string, size: nat, now: int)
      requires index.Valid() && f in disk && disk[f].key !in index.records
      modifies this`disk, index
      ensures index.Valid()
      ensures Servable(old(disk)[f].entry, now) ==>
                disk == old(disk) && index.order == [RecordFor(f, disk[f], size, now)] + old(index.order)
      ensures !Servable(old(disk)[f].entry, now) ==> disk == old(disk) - {f} && index.order == old(index.order)
    {
      var env := disk[f];
      if !Servable(env.entry, now) {
        disk := disk - {f};
      } else {
        index.Push(RecordFor(f, env, size, now));
      }
    }

    method Get(key: string, now: int) returns (found: Option<Entry>)
      requires Valid()
      modifies this`disk, index
      ensures Valid() && AsState() == AfterGet(old(AsState()), key, now)
      ensures found == Answer(old(AsState()), key, now)
    {
      if key !in index.records {
        return None;
      }
      var record := index.records[key];
      if now > record.value.expires {
        index.Remove(key);
        disk := disk - {record.value.filename};
        return None;
      }
      if record.value.filename !in disk {
        index.Remove(key);
        return None;
      }
      index.Touch(key);
      return Some(disk[record.value.filename].entry);
    }

    method Set(key: string, entry: Entry, now: int)
      requires Valid()
      modifies this, index
      ensures Valid() && AsState() == AfterSet(layout, old(AsState()), key, entry, now)
      ensures oversized == old(oversized) + (if Ttl(entry) > 0 && Size(entry) > layout.budget then 1 else 0)
      ensures var gone := Displaced(layout, old(AsState()), key, entry, now);
              evictedFresh == old(evictedFresh) + FreshAmong(gone, now)
              && evictedStale == old(evictedStale) + |gone| - FreshAmong(gone, now)
    {
      if Ttl(entry) == 0 {
        return;
      }
      if Size(entry) > layout.budget {
        oversized := oversized + 1;
        return;
      }
      var filename := layout.nameOf(key);
      disk := disk[filename := Envelope(key, entry)];
      var evicted := IndexFile(key, entry, filename, now);
      Count(evicted, now);
    }

    /** Indexes the file just written, replacing the key's record but not its file, and evicts to fit. */
    method IndexFile(key: string, entry: Entry, filename: string, now: int) returns (evicted: Records)
      requires index.Valid() && filename == layout.nameOf(key)
      modifies this`disk, index
      ensures index.Valid()
      ensures var pushed := [RecordFor(filename, Envelope(key, entry), Size(entry), now)] + RemoveKey(old(index.order), key);
              && index.order == Fit(pushed, layout.budget) && |index.order| <= |pushed|
              && evicted == pushed[|index.order|..] && disk == old(disk) - Filenames(evicted)
    {
      ghost var before := index.order;
      RemoveKeyFacts(before, key);
      if key in index.records {
        index.Remove(key);
      }
      index.Push(RecordFor(filename, Envelope(key, entry), Size(entry), now));
      ghost var pushed := index.order;
      evicted := index.EvictToFit(layout.budget);
      assert evicted == pushed[|index.order|..];
      RemoveFiles(evicted);
    }

    method Count(evicted: Records, now: int)
      modifies this`evictedFresh, this`evictedStale
      ensures evictedFresh == old(evictedFresh) + FreshAmong(evicted, now)
      ensures evictedStale == old(evictedStale) + |evicted| - FreshAmong(evicted, now)
    {
      for i := 0 to |evicted|
        invariant evictedFresh == old(evictedFresh) + FreshAmong(evicted[..i], now)
        invariant evictedStale == old(evictedStale) + i - FreshAmong(evicted[..i], now)
      {
        assert evicted[..i + 1][..i] == evicted[..i];
        if now < evicted[i].value.freshUntil {
          evictedFresh := evictedFresh + 1;
        } else {
          evictedStale := evictedStale + 1;
        }
      }
      assert evicted[..|evicted|] == evicted;
    }

    method RemoveFiles(gone: Records)
      modifies this`disk
      ensures disk == old(disk) - Filenames(gone)
    {
      for i := 0 to |gone|
        invariant disk == old(disk) - Filenames(gone[..i])
      {
        FilenamesStep(gone, i);
        disk := disk - {gone[i].value.filename};
      }
      assert gone[..|gone|] == gone;
    }

    method Purge(service: string, prefix: string) returns (purged: nat)
      requires Valid()
      modifies this`disk, index
      ensures Valid() && AsState() == AfterPurge(old(AsState()), service, prefix)
      ensures purged == |old(index.order)| - |index.order|
    {
      var gone := index.PurgeMatching(service, prefix);
      RemoveFiles(gone);
      purged := |gone|;
    }
  }

  /** The files left when the listed ones that can answer nothing are gone. */
  function Sifted(files: map<string, Envelope>, listed: seq<string>, now: int): map<string, Envelope> {
    map f | f in files && (f !in listed || Servable(files[f].entry, now)) :: files[f]
  }

  lemma SiftStep(files: map<string, Envelope>, listing: seq<string>, i: nat, now: int)
    requires i < |listing| && Lists(listing, files)
    ensures var f := listing[i];
            var before := Sifted(files, listing[..i], now);
            && f in before && before[f] == files[f]
            && Sifted(files, listing[..i + 1], now) == if Servable(files[f].entry, now) then before else before - {f}
  {
    assert listing[..i + 1] == listing[..i] + [listing[i]];
    assert listing[i] in listing && listing[i] !in listing[..i];
  }

  lemma RestoreStep(files: map<string, Envelope>, listing: seq<string>, i: nat, sizeOf: string -> nat, now: int)
    requires i < |listing| && listing[i] in files
    ensures var f := listing[i];
            var before := Restored(files, listing[..i], sizeOf, now);
            Restored(files, listing[..i + 1], sizeOf, now)
            == if Servable(files[f].entry, now) then [RecordFor(f, files[f], sizeOf(f), now)] + before else before
  {
    assert listing[..i + 1][..i] == listing[..i];
  }

  lemma SiftedAll(files: map<string, Envelope>, listing: seq<string>, now: int)
    requires Lists(listing, files)
    ensures Sifted(files, listing, now) == map f | f in files && Servable(files[f].entry, now) :: files[f]
  {
  }

  lemma NotYetRestored(layout: Layout, index: RecencyIndex<FileInfo>, files: map<string, Envelope>, listing: seq<string>, i: nat, sizeOf: string -> nat, now: int)
    requires index.Valid() && Lists(listing, files) && i < |listing|
    requires forall f :: f in files ==> f == layout.nameOf(files[f].key)
    requires index.order == Restored(files, listing[..i], sizeOf, now)
    ensures listing[i] in files && files[listing[i]].key !in index.records
  {
    RestoredFacts(layout, files, listing[..i], sizeOf, now);
    assert listing[i] in listing && listing[i] !in listing[..i];
  }

  lemma FilenamesStep(gone: Records, i: nat)
    requires i < |gone|
    ensures Filenames(gone[..i + 1]) == Filenames(gone[..i]) + {gone[i].value.filename}
  {
    var now := gone[..i + 1];
    forall f | f in Filenames(gone[..i]) + {gone[i].value.filename} ensures f in Filenames(now) {
      if f == gone[i].value.filename {
        assert now[i] == gone[i];
      } else {
        var j :| 0 <= j < i && gone[..i][j].value.filename == f;
        assert now[j] == gone[..i][j];
      }
    }
    forall f | f in Filenames(now) ensures f in Filenames(gone[..i]) + {gone[i].value.filename} {
      var j :| 0 <= j < |now| && now[j].value.filename == f;
      if j < i { assert gone[..i][j] == now[j]; }
    }
  }

  /** A rebuilt index agrees with the files left, whatever was indexed before. */
  lemma RestoredAgrees(layout: Layout, keys: set<string>, files: map<string, Envelope>, listing: seq<string>, sizeOf: string -> nat, now: int)
    requires !Collides(layout, keys) && Lists(listing, files)
    requires forall f :: f in files ==> f == layout.nameOf(files[f].key) && files[f].key in keys
    ensures Agrees(layout, keys, Reopened(State([], files), listing, sizeOf, now))
  {
    var after := Reopened(State([], files), listing, sizeOf, now);
    RestoredFacts(layout, files, listing, sizeOf, now);
    forall k | k in keys ensures Has(after.order, k) <==> layout.nameOf(k) in after.disk {
      if layout.nameOf(k) in files {
        assert files[layout.nameOf(k)].key == k;
      }
    }
    HeldKeys(after.order, keys);
    AgreesFrom(layout, keys, after);
  }
}
