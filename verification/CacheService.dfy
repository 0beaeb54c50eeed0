/** What a client of the cache gets: whose bytes, how old, and when a stored copy is used at all. */
module CacheService {
  import opened Text
  import opened CacheEntry
  import opened CacheKeys
  import opened CacheVariant
  import opened CacheProtocol
  import opened CacheSafety
  import Inflight
  import Leases

  // ---- Whose bytes ----

  /** All of a response but its lifetime. */
  predicate SameBytes(a: Entry, b: Entry) {
    && a.service == b.service && a.path == b.path && a.varyOn == b.varyOn && a.variantKey == b.variantKey
    && a.variants == b.variants && a.status == b.status && a.header == b.header && a.body == b.body
  }

  function Came(a: Action): set<Request> {
    if a.Arrive? then {a.request} else {}
  }

  function Gave(a: Action): set<Entry> {
    if a.Record? then {a.entry} else {}
  }

  /** The requests that arrived in a run. */
  function Arrivals(actions: seq<Action>): set<Request> {
    if actions == [] then {} else Came(actions[0]) + Arrivals(actions[1..])
  }

  /** The responses targets gave in a run. */
  function Given(actions: seq<Action>): set<Entry> {
    if actions == [] then {} else Gave(actions[0]) + Given(actions[1..])
  }

  ghost predicate FromTarget(given: set<Entry>, e: Entry) {
    exists g :: g in given && SameBytes(g, e)
  }

  /** Every task and every replay is for a request that arrived, and every recorded response has the bytes of one given. */
  ghost predicate Traced(w: World, arrived: set<Request>, given: set<Entry>) {
    && (forall id :: id in w.tasks ==> w.tasks[id].asker in arrived)
    && (forall i :: 0 <= i < |w.replays| ==> w.replays[i].request in arrived)
    && (forall rec :: rec in w.recorded ==> rec.asker in arrived && FromTarget(given, rec.entry))
  }

  lemma TracedServe(k: Keying, w: World, a: Action, arrived: set<Request>, given: set<Entry>)
    requires Traced(w, arrived, given) && Enabled(k, w, a) && a.Serve?
    ensures Traced(Apply(k, w, a), arrived, given)
  {
    assert w.tasks[a.id].asker in arrived;
  }

  lemma TracedRecord(k: Keying, w: World, a: Action, arrived: set<Request>, given: set<Entry>)
    requires Traced(w, arrived, given) && Enabled(k, w, a) && a.Record?
    ensures Traced(Apply(k, w, a), arrived, given + {a.entry})
  {
    var v := Apply(k, w, a);
    forall rec | rec in v.recorded ensures rec.asker in arrived && FromTarget(given + {a.entry}, rec.entry) {
      if rec in w.recorded {
        var g :| g in given && SameBytes(g, rec.entry);
        assert g in given + {a.entry};
      } else {
        assert a.entry in given + {a.entry} && SameBytes(a.entry, rec.entry);
      }
    }
  }

  lemma TracedNotModified(k: Keying, w: World, a: Action, arrived: set<Request>, given: set<Entry>)
    requires Traced(w, arrived, given) && Enabled(k, w, a) && a.NotModified?
    ensures Traced(Apply(k, w, a), arrived, given)
  {
    NotModifiedShape(k, w, a);
    var v := Apply(k, w, a);
    var stale := w.tasks[a.id].stale.value;
    var e := Refreshed(stale, a.now, a.freshFor, a.staleWhileRevalidate);
    assert SameBytes(stale, e);
    forall rec | rec in v.recorded ensures rec.asker in arrived && FromTarget(given, rec.entry) {
      if rec !in w.recorded {
        var was :| was in w.recorded && was.entry == stale && rec == was.(entry := e);
        var g :| g in given && SameBytes(g, was.entry);
        assert SameBytes(g, rec.entry);
      }
    }
  }

  /** A step that records nothing, starts no task, and replays at most to one of those there are. */
  ghost predicate Continues(w: World, v: World) {
    && v.recorded == w.recorded
    && (forall id :: id in v.tasks ==> id in w.tasks && v.tasks[id].asker == w.tasks[id].asker)
    && (v.replays == w.replays || exists id, e :: id in w.tasks && v.replays == w.replays + [Replay(w.tasks[id].asker, e)])
  }

  lemma ContinuesLookUp(k: Keying, w: World, a: Action)
    requires Enabled(k, w, a) && a.LookUp?
    ensures Continues(w, Apply(k, w, a))
  {
    LookUpShape(k, w, a);
  }

  lemma ContinuesFollow(k: Keying, w: World, a: Action)
    requires Enabled(k, w, a) && a.FollowIndex?
    ensures Continues(w, Apply(k, w, a))
  {
  }

  lemma ContinuesFetch(k: Keying, w: World, a: Action)
    requires Enabled(k, w, a) && (a.StopWaiting? || a.NothingStorable? || a.Abandon?)
    ensures Continues(w, Apply(k, w, a))
  {
  }

  lemma ContinuesFlight(k: Keying, w: World, a: Action)
    requires Enabled(k, w, a) && (a.Join? || a.Settle? || a.RefuseEarly?)
    ensures Continues(w, Apply(k, w, a))
  {
    if a.Join? { JoinShape(k, w, a); } else { SettleShape(k, w, a); }
  }

  lemma ContinuesLease(k: Keying, w: World, a: Action)
    requires Enabled(k, w, a) && (a.AskLease? || a.ReleaseLease? || a.DropRecord? || a.ExpireLease?)
    ensures Continues(w, Apply(k, w, a))
  {
    if a.AskLease? { AskLeaseShape(k, w, a); }
    if a.ReleaseLease? { ReleaseLeaseShape(k, w, a); }
  }

  lemma ContinuesWriting(k: Keying, w: World, a: Action)
    requires Enabled(k, w, a) && (a.WriteVariant? || a.WriteIndex?)
    ensures Continues(w, Apply(k, w, a))
  {
    if a.WriteVariant? { var _ := WriteVariantShape(k, w, a); }
  }

  lemma ContinuesReplaying(k: Keying, w: World, a: Action)
    requires Enabled(k, w, a) && (a.Probe? || a.Wake?)
    ensures Continues(w, Apply(k, w, a))
  {
    if a.Wake? { WakeShape(k, w, a); }
  }

  lemma TracedPlain(k: Keying, w: World, a: Action, arrived: set<Request>, given: set<Entry>)
    requires Traced(w, arrived, given) && Enabled(k, w, a) && !a.Arrive? && !a.Serve? && !a.Record? && !a.NotModified?
    ensures Traced(Apply(k, w, a), arrived, given)
  {
    if a.LookUp? { ContinuesLookUp(k, w, a); }
    else if a.FollowIndex? { ContinuesFollow(k, w, a); }
    else if a.StopWaiting? || a.NothingStorable? || a.Abandon? { ContinuesFetch(k, w, a); }
    else if a.Join? || a.Settle? || a.RefuseEarly? { ContinuesFlight(k, w, a); }
    else if a.AskLease? || a.ReleaseLease? || a.DropRecord? || a.ExpireLease? { ContinuesLease(k, w, a); }
    else if a.WriteVariant? || a.WriteIndex? { ContinuesWriting(k, w, a); }
    else { ContinuesReplaying(k, w, a); }
    TracedOn(w, Apply(k, w, a), arrived, given);
  }

  lemma TracedOn(w: World, v: World, arrived: set<Request>, given: set<Entry>)
    requires Traced(w, arrived, given) && Continues(w, v)
    ensures Traced(v, arrived, given)
  {
  }

  lemma StepTraced(k: Keying, w: World, a: Action, arrived: set<Request>, given: set<Entry>)
    requires Traced(w, arrived, given) && Enabled(k, w, a)
    ensures Traced(Apply(k, w, a), arrived + Came(a), given + Gave(a))
  {
    if a.Arrive? {
      assert given + Gave(a) == given;
    } else {
      assert arrived + Came(a) == arrived;
      if a.Record? {
        TracedRecord(k, w, a, arrived, given);
      } else {
        assert given + Gave(a) == given;
        if a.Serve? { TracedServe(k, w, a, arrived, given); }
        else if a.NotModified? { TracedNotModified(k, w, a, arrived, given); }
        else { TracedPlain(k, w, a, arrived, given); }
      }
    }
  }

  lemma {:induction false} RunTraced(k: Keying, w: World, actions: seq<Action>, v: World, arrived: set<Request>, given: set<Entry>)
    requires Traced(w, arrived, given) && Reaches(k, w, actions, v)
    ensures Traced(v, arrived + Arrivals(actions), given + Given(actions))
    decreases |actions|
  {
    if actions == [] {
      assert arrived + Arrivals(actions) == arrived && given + Given(actions) == given;
    } else {
      var a := actions[0];
      StepTraced(k, w, a, arrived, given);
      RunTraced(k, Apply(k, w, a), actions[1..], v, arrived + Came(a), given + Gave(a));
      assert arrived + Came(a) + Arrivals(actions[1..]) == arrived + Arrivals(actions);
      assert given + Gave(a) + Given(actions[1..]) == given + Given(actions);
    }
  }

  /**
   * Over every run, a replay goes to a request that arrived, and its status,
   * headers and body are those some target gave; a confirmed copy restarts its
   * life and changes nothing else.
   */
  lemma ReplayedBytesWereGiven(k: Keying, actions: seq<Action>, v: World, i: nat)
    requires SoundKeying(k) && Reaches(k, INITIAL, actions, v) && i < |v.replays|
    ensures v.replays[i].request in Arrivals(actions) && FromTarget(Given(actions), v.replays[i].entry)
  {
    RunSafe(k, INITIAL, actions, v);
    RunTraced(k, INITIAL, actions, v, {}, {});
    assert {} + Arrivals(actions) == Arrivals(actions) && {} + Given(actions) == Given(actions);
    assert Matched(k, v.recorded, v.replays[i].request, v.replays[i].entry);
    var rec :| rec in v.recorded && rec.entry == v.replays[i].entry && Fits(k, rec, v.replays[i].request);
  }

  // ---- How old ----

  /** Seconds since the response was made, at the least. */
  function AgeAt(e: Entry, now: int): int {
    if now < e.storedAt then e.initialAge else e.initialAge + now - e.storedAt
  }

  /**
   * Only three steps replay anything, each to its own client: a serve replays the
   * record in hand within its fresh or stale window, a waiter on a lease only
   * within the fresh one, and a follower whatever its leader handed over.
   */
  lemma AnsweredInTime(k: Keying, w: World, a: Action)
    requires Enabled(k, w, a) && Apply(k, w, a).replays != w.replays
    ensures a.Serve? || a.Probe? || a.Wake?
    ensures var t := w.tasks[a.id];
            && (a.Serve? ==> Apply(k, w, a).replays == w.replays + [Replay(t.asker, t.phase.entry)]
                             && AgeAt(t.phase.entry, a.now) < t.phase.entry.freshFor + t.phase.entry.staleWhileRevalidate)
            && (a.Probe? ==> Primary(k, t) in w.store
                             && Apply(k, w, a).replays == w.replays + [Replay(t.asker, w.store[Primary(k, t)])]
                             && AgeAt(w.store[Primary(k, t)], a.now) < w.store[Primary(k, t)].freshFor)
            && (a.Wake? ==> w.flights.calls[t.phase.call].entry.Some?
                            && Apply(k, w, a).replays == w.replays + [Replay(t.asker, w.flights.calls[t.phase.call].entry.value)])
  {
  }

  // ---- When a stored copy is used ----

  /** The reads a request makes, hitting where the store has a record, and the serve decision after them. */
  function LookupSteps(k: Keying, w: World, id: nat, now: int, refresh: nat, refreshRequest: Request): seq<Action>
    requires At(w, id, Looking) && Primary(k, w.tasks[id]) in w.store
  {
    var serve := Serve(id, now, refresh, refreshRequest);
    if IsIndex(w.store[Primary(k, w.tasks[id])]) then [LookUp(id, true), FollowIndex(id, true), serve] else [LookUp(id, true), serve]
  }

  /** What the store holds at a key. */
  function HeldAt(store: map<string, Entry>): string -> Option<Entry> {
    (key: string) => if key in store then Some(store[key]) else None
  }

  lemma ThreeSteps(k: Keying, w: World, a: Action, b: Action, c: Action)
    requires Enabled(k, w, a) && Enabled(k, Apply(k, w, a), b) && Enabled(k, Apply(k, Apply(k, w, a), b), c)
    ensures Reaches(k, w, [a, b, c], Apply(k, Apply(k, Apply(k, w, a), b), c))
  {
    var w1 := Apply(k, w, a);
    var w2 := Apply(k, w1, b);
    assert [a, b, c][1..] == [b, c];
    TwoSteps(k, w1, b, c);
  }

  lemma TwoSteps(k: Keying, w: World, a: Action, b: Action)
    requires Enabled(k, w, a) && Enabled(k, Apply(k, w, a), b)
    ensures Reaches(k, w, [a, b], Apply(k, Apply(k, w, a), b))
  {
    var w1 := Apply(k, w, a);
    assert [a, b][1..] == [b] && [b][1..] == [];
    assert Reaches(k, Apply(k, w1, b), [], Apply(k, w1, b));
    assert Reaches(k, w1, [b], Apply(k, w1, b));
  }

  /** The record two reads lead to is in hand. */
  lemma LookupFinds(k: Keying, w: World, id: nat, e: Entry) returns (v: World)
    requires At(w, id, Looking) && Lookup(k, HeldAt(w.store), w.tasks[id].asker) == Some(e)
    requires !IsIndex(e)
    ensures Primary(k, w.tasks[id]) in w.store
    ensures var w1 := Apply(k, w, LookUp(id, true));
            if IsIndex(w.store[Primary(k, w.tasks[id])]) then Enabled(k, w1, FollowIndex(id, true)) && v == Apply(k, w1, FollowIndex(id, true))
            else v == w1
    ensures id in v.tasks && v.tasks[id].phase.Found? && v.tasks[id].phase.entry == e && v.tasks[id].asker == w.tasks[id].asker
    ensures v.tasks[id].node == w.tasks[id].node && v.tasks.Keys == w.tasks.Keys && v.replays == w.replays && v.flights == w.flights
  {
    var w1 := Apply(k, w, LookUp(id, true));
    v := if IsIndex(w.store[Primary(k, w.tasks[id])]) then Apply(k, w1, FollowIndex(id, true)) else w1;
  }

  /** Serving what is in hand and alive: the replay, and behind a stale copy one refresh, unless one is under way. */
  lemma ServeReplays(k: Keying, w: World, id: nat, now: int, refresh: nat, refreshRequest: Request)
    requires id in w.tasks && w.tasks[id].phase.Found? && refresh !in w.tasks
    requires var t := w.tasks[id];
             Answers(k, t.phase.entry, Primary(k, t), t.asker)
             && AgeAt(t.phase.entry, now) < t.phase.entry.freshFor + t.phase.entry.staleWhileRevalidate
    ensures var t := w.tasks[id];
            var v := Apply(k, w, Serve(id, now, refresh, refreshRequest));
            var refreshing := AgeAt(t.phase.entry, now) >= t.phase.entry.freshFor && (t.node, Primary(k, t)) !in w.flights.registered;
            && v.replays == w.replays + [Replay(t.asker, t.phase.entry)] && At(v, id, Done)
            && (refresh in v.tasks <==> refreshing)
            && (refreshing ==> v.tasks[refresh].phase == Leading && v.tasks[refresh].stale == Some(t.phase.entry)
                               && v.tasks[refresh].asker == t.asker && v.tasks[refresh].leads == Some(|w.flights.calls|))
  {
  }

  /**
   * A request that the two reads lead to a response the gate lets through and that
   * is still alive is answered with it, there and then; a stale one starts one
   * refresh unless one is under way.
   */
  lemma HitIsServed(k: Keying, w: World, id: nat, e: Entry, now: int, refresh: nat, refreshRequest: Request) returns (v: World)
    requires At(w, id, Looking) && Lookup(k, HeldAt(w.store), w.tasks[id].asker) == Some(e) && refresh !in w.tasks
    requires Answers(k, e, Primary(k, w.tasks[id]), w.tasks[id].asker) && AgeAt(e, now) < e.freshFor + e.staleWhileRevalidate
    ensures Primary(k, w.tasks[id]) in w.store && Reaches(k, w, LookupSteps(k, w, id, now, refresh, refreshRequest), v)
    ensures v.replays == w.replays + [Replay(w.tasks[id].asker, e)] && At(v, id, Done)
    ensures refresh in v.tasks <==> AgeAt(e, now) >= e.freshFor && (w.tasks[id].node, Primary(k, w.tasks[id])) !in w.flights.registered
  {
    var found := LookupFinds(k, w, id, e);
    ServeReplays(k, found, id, now, refresh, refreshRequest);
    var serve := Serve(id, now, refresh, refreshRequest);
    v := Apply(k, found, serve);
    if IsIndex(w.store[Primary(k, w.tasks[id])]) {
      ThreeSteps(k, w, LookUp(id, true), FollowIndex(id, true), serve);
    } else {
      TwoSteps(k, w, LookUp(id, true), serve);
    }
  }

  // ---- Who may be given a stored copy at all ----

  /** The phases in which a stored copy is read or waited for. */
  predicate UsesStore(p: Phase) {
    p.Looking? || p.Redirected? || p.Found? || p.Waiting?
  }

  ghost predicate RefusersSpared(w: World) {
    forall id :: id in w.tasks && !w.tasks[id].allowsStored ==> !UsesStore(w.tasks[id].phase)
  }

  /** A step changes no task's wishes, and brings only tasks that allow it to the store. */
  ghost predicate WishesKept(w: World, v: World) {
    forall id :: id in v.tasks ==>
      if id in w.tasks then v.tasks[id].allowsStored == w.tasks[id].allowsStored
                            && (UsesStore(v.tasks[id].phase) ==> UsesStore(w.tasks[id].phase) || w.tasks[id].allowsStored)
      else UsesStore(v.tasks[id].phase) ==> v.tasks[id].allowsStored
  }

  lemma WishesRead(k: Keying, w: World, a: Action)
    requires Enabled(k, w, a) && (a.Arrive? || a.LookUp? || a.FollowIndex? || a.StopWaiting? || a.NothingStorable? || a.Abandon?)
    ensures WishesKept(w, Apply(k, w, a))
  {
  }

  lemma WishesServe(k: Keying, w: World, a: Action)
    requires Enabled(k, w, a) && a.Serve?
    ensures WishesKept(w, Apply(k, w, a))
  {
  }

  lemma WishesFlight(k: Keying, w: World, a: Action)
    requires Enabled(k, w, a) && (a.Settle? || a.RefuseEarly?)
    ensures WishesKept(w, Apply(k, w, a))
  {
    SettleShape(k, w, a);
  }

  lemma WishesJoin(k: Keying, w: World, a: Action)
    requires Enabled(k, w, a) && a.Join?
    ensures WishesKept(w, Apply(k, w, a))
  {
    JoinShape(k, w, a);
  }

  lemma WishesLease(k: Keying, w: World, a: Action)
    requires Enabled(k, w, a) && (a.AskLease? || a.ReleaseLease? || a.DropRecord? || a.ExpireLease?)
    ensures WishesKept(w, Apply(k, w, a))
  {
  }

  lemma WishesStore(k: Keying, w: World, a: Action)
    requires Enabled(k, w, a) && (a.WriteVariant? || a.WriteIndex?)
    ensures WishesKept(w, Apply(k, w, a))
  {
    if a.WriteVariant? { var _ := WriteVariantShape(k, w, a); }
  }

  lemma WishesRecord(k: Keying, w: World, a: Action)
    requires Enabled(k, w, a) && (a.Record? || a.NotModified?)
    ensures WishesKept(w, Apply(k, w, a))
  {
    if a.NotModified? { NotModifiedShape(k, w, a); }
  }

  lemma WishesReplay(k: Keying, w: World, a: Action)
    requires Enabled(k, w, a) && (a.Probe? || a.Wake?)
    ensures WishesKept(w, Apply(k, w, a))
  {
    if a.Wake? { WakeShape(k, w, a); }
  }

  lemma StepSpares(k: Keying, w: World, a: Action)
    requires Enabled(k, w, a) && RefusersSpared(w)
    ensures RefusersSpared(Apply(k, w, a))
  {
    if a.Arrive? || a.LookUp? || a.FollowIndex? || a.StopWaiting? || a.NothingStorable? || a.Abandon? { WishesRead(k, w, a); }
    else if a.Serve? { WishesServe(k, w, a); }
    else if a.Join? { WishesJoin(k, w, a); }
    else if a.Settle? || a.RefuseEarly? { WishesFlight(k, w, a); }
    else if a.AskLease? || a.ReleaseLease? || a.DropRecord? || a.ExpireLease? { WishesLease(k, w, a); }
    else if a.Record? || a.NotModified? { WishesRecord(k, w, a); }
    else if a.WriteVariant? || a.WriteIndex? { WishesStore(k, w, a); }
    else { WishesReplay(k, w, a); }
    WishesSpare(w, Apply(k, w, a));
  }

  lemma WishesSpare(w: World, v: World)
    requires RefusersSpared(w) && WishesKept(w, v)
    ensures RefusersSpared(v)
  {
  }

  lemma {:induction false} RunSpares(k: Keying, w: World, actions: seq<Action>, v: World)
    requires Reaches(k, w, actions, v) && RefusersSpared(w)
    ensures RefusersSpared(v)
    decreases |actions|
  {
    if actions != [] {
      StepSpares(k, w, actions[0]);
      RunSpares(k, Apply(k, w, actions[0]), actions[1..], v);
    }
  }

  /** In every run a request that does not allow a stored response is neither served one nor made to wait for one; it may only share a fetch. */
  lemma RefusersGetNoStoredCopy(k: Keying, actions: seq<Action>, v: World, a: Action)
    requires Reaches(k, INITIAL, actions, v) && Enabled(k, v, a) && Apply(k, v, a).replays != v.replays
    requires !v.tasks[a.id].allowsStored
    ensures a.Wake?
  {
    RunSpares(k, INITIAL, actions, v);
    AnsweredInTime(k, v, a);
  }

  // ---- Storing and handing over ----

  /** Both writes reaching the store leave what storing a variant means, and the response in hand for the followers. */
  lemma WritesPublish(k: Keying, w: World, id: nat) returns (v: World)
    requires id in w.tasks && w.tasks[id].phase.Storing?
    ensures var t := w.tasks[id];
            var w1 := Apply(k, w, WriteVariant(id, true));
            && (if w1.tasks[id].phase.Indexing? then v == Apply(k, w1, WriteIndex(id, true)) else v == w1)
            && v.store == StoreVariant(k, w.store, t.index, t.phase.entry, Primary(k, t))
            && At(v, id, Settling) && v.tasks[id].stored == Some(t.phase.entry) && v.tasks[id].leads == t.leads
  {
    var w1 := Apply(k, w, WriteVariant(id, true));
    v := if w1.tasks[id].phase.Indexing? then Apply(k, w1, WriteIndex(id, true)) else w1;
  }

  /** A leader that settles gives its response to every follower the gate lets have it, and sends the others to the target. */
  lemma LeaderServesFollowers(k: Keying, w: World, leader: nat, follower: nat, call: nat)
    requires Safe(k, w) && At(w, leader, Settling) && w.tasks[leader].leads == Some(call) && call < |w.flights.calls|
    requires !w.flights.calls[call].settled && At(w, follower, Following(call))
    ensures var v := Apply(k, w, Settle(leader));
            var t, stored := w.tasks[follower], w.tasks[leader].stored;
            var u := Apply(k, v, Wake(follower));
            && Enabled(k, v, Wake(follower))
            && if stored.Some? && Answers(k, stored.value, Primary(k, t), t.asker)
               then u.replays == w.replays + [Replay(t.asker, stored.value)] && At(u, follower, Done)
               else u.replays == w.replays && At(u, follower, Forwarding)
  {
    Inflight.SettleValid(w.flights, call, w.tasks[leader].stored);
    SettleShape(k, w, Settle(leader));
    WakeShape(k, Apply(k, w, Settle(leader)), Wake(follower));
  }

  /** A response that turns out not to be storable while it still streams frees a foreground leader's followers at once, with nothing. */
  lemma EarlyRefusalFrees(k: Keying, w: World, leader: nat, follower: nat, call: nat)
    requires Safe(k, w) && At(w, leader, Forwarding) && w.tasks[leader].leads == Some(call) && w.tasks[leader].stale.None?
    requires call < |w.flights.calls| && !w.flights.calls[call].settled && At(w, follower, Following(call))
    ensures var v := Apply(k, w, RefuseEarly(leader));
            Enabled(k, v, Wake(follower)) && At(Apply(k, v, Wake(follower)), follower, Forwarding)
  {
    Inflight.SettleValid(w.flights, call, None);
    SettleShape(k, w, RefuseEarly(leader));
    WakeShape(k, Apply(k, w, RefuseEarly(leader)), Wake(follower));
  }

  /** A copy the target confirmed has the same bytes and a new life, goes to the followers, and is stored where it was when the write goes through. */
  lemma ConfirmedCopy(k: Keying, w: World, a: Action)
    requires Enabled(k, w, a) && a.NotModified?
    ensures var v, was := Apply(k, w, a), w.tasks[a.id].stale.value;
            && v.tasks[a.id].stored.Some? && At(v, a.id, Settling)
            && var e := v.tasks[a.id].stored.value;
               && SameBytes(was, e) && e.storedAt == a.now && e.initialAge == 0
               && e.freshFor == a.freshFor && e.staleWhileRevalidate == a.staleWhileRevalidate
               && v.store == if a.written then w.store[if was.variantKey == "" then Primary(k, w.tasks[a.id]) else was.variantKey := e] else w.store
  {
    NotModifiedShape(k, w, a);
  }

  // ---- Where a request begins, and waiting on another proxy ----

  /** A request that allows a stored response looks for one first; another goes straight to the flight. */
  lemma ArrivalLaw(k: Keying, w: World, a: Action)
    requires Enabled(k, w, a) && a.Arrive?
    ensures At(Apply(k, w, a), a.id, if a.allowsStored then Looking else Joining)
    ensures Apply(k, w, a).tasks[a.id].asker == a.request && Apply(k, w, a).tasks[a.id].sent == a.request
  {
  }

  /**
   * A leader that asks for the lease and is told it is taken waits for the holder's
   * result, or, refreshing behind a stale copy, gives up; one that gets it keeps the
   * token and holds the lease.
   */
  lemma LeaseLaw(k: Keying, w: World, a: Action)
    requires Enabled(k, w, a) && a.AskLease? && w.tasks[a.id].allowsStored && a.asked && a.answered
    ensures var t, v := w.tasks[a.id], Apply(k, w, a);
            var key := LeaseKey(Primary(k, t));
            if key in w.leases then v.leases == w.leases && At(v, a.id, if t.stale.Some? then Settling else Waiting)
            else v.leases == w.leases[key := a.token] && v.tasks[a.id].token == Some(a.token) && At(v, a.id, Forwarding)
  {
    var t := w.tasks[a.id];
    var key := LeaseKey(Primary(k, t));
    assert Leases.IsTaken(Leases.Claim(w.leases, key, a.token).1) <==> key in w.leases;
  }

  /** A waiter that finds a fresh response at its resource's key that the gate lets through is answered with it. */
  lemma ProbeServes(k: Keying, w: World, id: nat, now: int)
    requires At(w, id, Waiting) && Primary(k, w.tasks[id]) in w.store
    requires var t := w.tasks[id];
             var e := w.store[Primary(k, t)];
             Answers(k, e, Primary(k, t), t.asker) && AgeAt(e, now) < e.freshFor
    ensures var t, v := w.tasks[id], Apply(k, w, Probe(id, now, true));
            var e := w.store[Primary(k, t)];
            v.replays == w.replays + [Replay(t.asker, e)] && At(v, id, Settling) && v.tasks[id].stored == Some(e)
  {
  }

  // ---- Nobody gets stuck ----

  /** A step a task takes by itself, whatever the others do: what it finds is the worst case. */
  function NextStep(w: World, id: nat, now: int, refresh: nat, request: Request): Action
    requires id in w.tasks && w.tasks[id].phase != Done
  {
    match w.tasks[id].phase
    case Looking => LookUp(id, false)
    case Redirected => FollowIndex(id, false)
    case Found(_, _) => Serve(id, now, refresh, request)
    case Joining => Join(id)
    case Leading => AskLease(id, false, false, "")
    case Waiting => StopWaiting(id)
    case Forwarding => NothingStorable(id)
    case Doomed => NothingStorable(id)
    case Storing(_) => WriteVariant(id, false)
    case Indexing(_) => WriteIndex(id, false)
    case Settling => Settle(id)
    case Following(_) => Wake(id)
  }

  /**
   * In every safe state each unfinished task has a step of its own that moves it
   * on, unless it follows a call that is not settled yet -- and such a call has a
   * leader that is not finished either.
   */
  lemma NobodyStuck(k: Keying, w: World, id: nat, now: int, refresh: nat, request: Request)
    requires Safe(k, w) && Led(w) && id in w.tasks && w.tasks[id].phase != Done && refresh !in w.tasks
    ensures var a, t := NextStep(w, id, now, refresh, request), w.tasks[id];
            if t.phase.Following? && t.phase.call < |w.flights.calls| && !w.flights.calls[t.phase.call].settled
            then exists leader :: leader in w.tasks && Leads(w.tasks[leader], t.phase.call)
            else Moves(k, w, a, id)
  {
    assert TaskOk(k, w.recorded, w.flights, w.tasks[id]);
    var p := w.tasks[id].phase;
    if p.Following? && !w.flights.calls[p.call].settled {
    } else if p.Found? || p.Joining? || p.Following? || p.Settling? {
      FlightMoves(k, w, id, now, refresh, request);
    } else {
      FetchMoves(k, w, id, now, refresh, request);
    }
  }

  predicate Moves(k: Keying, w: World, a: Action, id: nat)
    requires id in w.tasks
  {
    Enabled(k, w, a) && id in Apply(k, w, a).tasks && Apply(k, w, a).tasks[id].phase != w.tasks[id].phase
  }

  lemma FetchMoves(k: Keying, w: World, id: nat, now: int, refresh: nat, request: Request)
    requires id in w.tasks && w.tasks[id].phase != Done && TaskOk(k, w.recorded, w.flights, w.tasks[id])
    requires var p := w.tasks[id].phase; !p.Found? && !p.Joining? && !p.Following? && !p.Settling?
    ensures Moves(k, w, NextStep(w, id, now, refresh, request), id)
  {
  }

  lemma FlightMoves(k: Keying, w: World, id: nat, now: int, refresh: nat, request: Request)
    requires id in w.tasks && TaskOk(k, w.recorded, w.flights, w.tasks[id]) && refresh !in w.tasks
    requires var p := w.tasks[id].phase; p.Found? || p.Joining? || p.Settling? || (p.Following? && p.call < |w.flights.calls| && w.flights.calls[p.call].settled)
    ensures Moves(k, w, NextStep(w, id, now, refresh, request), id)
  {
    var p := w.tasks[id].phase;
    if p.Joining? { JoinShape(k, w, Join(id)); }
    else if p.Settling? { SettleShape(k, w, Settle(id)); }
    else if p.Following? { WakeShape(k, w, Wake(id)); }
    else { FoundMoves(k, w, id, now, refresh, request); }
  }

  lemma FoundMoves(k: Keying, w: World, id: nat, now: int, refresh: nat, request: Request)
    requires id in w.tasks && w.tasks[id].phase.Found? && refresh !in w.tasks
    ensures Moves(k, w, Serve(id, now, refresh, request), id)
  {
  }

  // ---- Leases are per resource ----

  lemma LeaseKeyInjective(h: Hash, q: Request, o1: KeyOptions, r: Request, o2: KeyOptions)
    ensures LeaseKey(PrimaryKey(h, q, o1)) == LeaseKey(PrimaryKey(h, r, o2)) <==> PrimaryKey(h, q, o1) == PrimaryKey(h, r, o2)
  {
    var a, b := PrimaryKey(h, q, o1), PrimaryKey(h, r, o2);
    LeaseKeyTail(a, a[5..]);
    LeaseKeyTail(b, b[5..]);
  }

  lemma LeaseKeyTail(key: string, tail: string)
    requires |key| >= 5 && key[..5] == KEY_PREFIX && tail == key[5..]
    ensures |LeaseKey(key)| >= 5 && LeaseKey(key)[5..] == tail && key == KEY_PREFIX + tail
  {
  }
}
