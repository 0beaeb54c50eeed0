/** Every step of the cache protocol keeps it safe, so every run is. */
module CacheSafety {
  import opened Text
  import opened CacheEntry
  import opened CacheKeys
  import opened CacheVariant
  import opened CacheProtocol
  import CacheEncoding
  import Inflight
  import Leases

  /** A step that changes one task, and perhaps forgets records or moves leases, but nothing shared besides. */
  lemma OneTaskStep(k: Keying, w: World, v: World, id: nat)
    requires Safe(k, w) && v.recorded == w.recorded && v.flights == w.flights && v.replays == w.replays
    requires forall key :: key in v.store ==> key in w.store && v.store[key] == w.store[key]
    requires forall i :: i in v.tasks && i != id ==> i in w.tasks && v.tasks[i] == w.tasks[i]
    requires id in v.tasks ==> TaskOk(k, w.recorded, w.flights, v.tasks[id])
    ensures Safe(k, v)
  {
    TasksKept(k, w, v, {id});
    ReplaysKept(k, w, v);
  }

  lemma PutOk(k: Keying, w: World, id: nat, t: Task)
    requires Safe(k, w) && TaskOk(k, w.recorded, w.flights, t)
    ensures Safe(k, Put(w, id, t))
  {
    OneTaskStep(k, w, Put(w, id, t), id);
  }

  /** Phases that promise nothing about what a task holds. */
  predicate Bare(p: Phase) {
    !p.Found? && !p.Redirected? && !p.Storing? && !p.Indexing? && !p.Following?
  }

  lemma BareTask(k: Keying, recorded: set<Recorded>, flights: Flights, t: Task, u: Task)
    requires TaskOk(k, recorded, flights, t) && Bare(u.phase) && u == t.(phase := u.phase, token := u.token)
    ensures TaskOk(k, recorded, flights, u)
  {
  }

  lemma LookUpShape(k: Keying, w: World, a: Action)
    requires Enabled(k, w, a) && a.LookUp?
    ensures var t := w.tasks[a.id];
            var key := Primary(k, t);
            Apply(k, w, a) == Put(w, a.id,
              if !a.hit then t.(phase := Joining)
              else if IsIndex(w.store[key]) then t.(index := Some(w.store[key]), phase := Redirected)
              else t.(phase := Found(w.store[key], key)))
  {
  }

  /** A lookup puts its task where what it found allows. */
  lemma LookUpTask(k: Keying, w: World, a: Action) returns (t: Task)
    requires StoreOk(k, w) && TasksOk(k, w) && Enabled(k, w, a) && a.LookUp?
    ensures Apply(k, w, a) == Put(w, a.id, t) && TaskOk(k, w.recorded, w.flights, t)
  {
    var u := w.tasks[a.id];
    var key := Primary(k, u);
    assert TaskOk(k, w.recorded, w.flights, u);
    LookUpShape(k, w, a);
    if !a.hit {
      t := u.(phase := Joining);
      BareTask(k, w.recorded, w.flights, u, t);
    } else if IsIndex(w.store[key]) {
      t := u.(index := Some(w.store[key]), phase := Redirected);
    } else {
      t := u.(phase := Found(w.store[key], key));
    }
  }

  lemma StepLookUp(k: Keying, w: World, a: Action)
    requires Safe(k, w) && Enabled(k, w, a) && a.LookUp?
    ensures Safe(k, Apply(k, w, a))
  {
    var t := LookUpTask(k, w, a);
    PutOk(k, w, a.id, t);
  }

  lemma FollowIndexTask(k: Keying, w: World, a: Action) returns (t: Task)
    requires StoreOk(k, w) && TasksOk(k, w) && Enabled(k, w, a) && a.FollowIndex?
    ensures Apply(k, w, a) == Put(w, a.id, t) && TaskOk(k, w.recorded, w.flights, t)
  {
    t := Apply(k, w, a).tasks[a.id];
    assert TaskOk(k, w.recorded, w.flights, w.tasks[a.id]);
  }

  lemma StepFollowIndex(k: Keying, w: World, a: Action)
    requires Safe(k, w) && Enabled(k, w, a) && a.FollowIndex?
    ensures Safe(k, Apply(k, w, a))
  {
    var t := FollowIndexTask(k, w, a);
    PutOk(k, w, a.id, t);
  }

  lemma PlainTask(k: Keying, w: World, a: Action) returns (t: Task)
    requires TasksOk(k, w) && Enabled(k, w, a) && (a.Arrive? || a.StopWaiting? || a.NothingStorable? || a.Abandon?)
    ensures Apply(k, w, a) == Put(w, a.id, t) && TaskOk(k, w.recorded, w.flights, t)
  {
    t := Apply(k, w, a).tasks[a.id];
    assert !a.Arrive? ==> TaskOk(k, w.recorded, w.flights, w.tasks[a.id]);
  }

  lemma StepFetch(k: Keying, w: World, a: Action)
    requires Safe(k, w) && Enabled(k, w, a) && (a.Arrive? || a.StopWaiting? || a.NothingStorable? || a.Abandon?)
    ensures Safe(k, Apply(k, w, a))
  {
    var t := PlainTask(k, w, a);
    PutOk(k, w, a.id, t);
  }

  lemma AskLeaseShape(k: Keying, w: World, a: Action)
    requires Enabled(k, w, a) && a.AskLease?
    ensures var v := Apply(k, w, a);
            a.id in v.tasks && Bare(v.tasks[a.id].phase)
            && v.tasks[a.id] == w.tasks[a.id].(phase := v.tasks[a.id].phase, token := v.tasks[a.id].token)
            && v == Put(w, a.id, v.tasks[a.id]).(leases := v.leases)
  {
  }

  lemma ReleaseLeaseShape(k: Keying, w: World, a: Action)
    requires Enabled(k, w, a) && a.ReleaseLease?
    ensures var v := Apply(k, w, a);
            a.id in v.tasks && Bare(v.tasks[a.id].phase)
            && v.tasks[a.id] == w.tasks[a.id].(phase := v.tasks[a.id].phase, token := v.tasks[a.id].token)
            && v == Put(w, a.id, v.tasks[a.id]).(leases := v.leases)
  {
  }

  /** A step that moves leases and one task to a bare phase. */
  lemma LeaseMoved(k: Keying, w: World, v: World, id: nat, u: Task)
    requires Safe(k, w) && id in w.tasks && Bare(u.phase) && u == w.tasks[id].(phase := u.phase, token := u.token)
    requires v == Put(w, id, u).(leases := v.leases)
    ensures Safe(k, v)
  {
    assert TaskOk(k, w.recorded, w.flights, w.tasks[id]);
    BareTask(k, w.recorded, w.flights, w.tasks[id], u);
    OneTaskStep(k, w, v, id);
  }

  lemma StepLease(k: Keying, w: World, a: Action)
    requires Safe(k, w) && Enabled(k, w, a) && (a.AskLease? || a.ReleaseLease?)
    ensures Safe(k, Apply(k, w, a))
  {
    if a.AskLease? { AskLeaseShape(k, w, a); } else { ReleaseLeaseShape(k, w, a); }
    LeaseMoved(k, w, Apply(k, w, a), a.id, Apply(k, w, a).tasks[a.id]);
  }

  lemma StepForget(k: Keying, w: World, a: Action)
    requires Safe(k, w) && Enabled(k, w, a) && (a.DropRecord? || a.ExpireLease?)
    ensures Safe(k, Apply(k, w, a))
  {
    var v := Apply(k, w, a);
    TasksKept(k, w, v, {});
    ReplaysKept(k, w, v);
  }

  lemma JoinShape(k: Keying, w: World, a: Action)
    requires Enabled(k, w, a) && a.Join?
    ensures var t := w.tasks[a.id];
            var (flights, call, leader) := Inflight.Join(w.flights, (t.node, Primary(k, t)));
            Apply(k, w, a) == Put(w, a.id, if leader then t.(leads := Some(call), phase := Leading) else t.(phase := Following(call))).(flights := flights)
  {
  }

  lemma JoinedTask(k: Keying, recorded: set<Recorded>, flights: Flights, t: Task, u: Task, call: nat)
    requires TaskOk(k, recorded, flights, t) && OwnCall(k, flights, t, call)
    requires u == t.(leads := Some(call), phase := Leading) || u == t.(phase := Following(call))
    ensures TaskOk(k, recorded, flights, u)
  {
  }

  lemma StepJoin(k: Keying, w: World, a: Action)
    requires Safe(k, w) && Enabled(k, w, a) && a.Join?
    ensures Safe(k, Apply(k, w, a))
  {
    var t := w.tasks[a.id];
    var v := Apply(k, w, a);
    JoinShape(k, w, a);
    assert TaskOk(k, w.recorded, w.flights, t);
    Inflight.JoinValid(w.flights, (t.node, Primary(k, t)));
    TaskOkMonotone(k, w.recorded, v.recorded, w.flights, v.flights, t);
    JoinedTask(k, v.recorded, v.flights, t, v.tasks[a.id], Inflight.Join(w.flights, (t.node, Primary(k, t))).1);
    TasksKept(k, w, v, {a.id});
    ReplaysKept(k, w, v);
  }

  /** Settling a call with an entry of its own resource keeps calls honest. */
  lemma SettleCalls(k: Keying, w: World, v: World, call: nat, entry: Option<Entry>)
    requires CallsOk(k, w) && v.recorded == w.recorded && call < |w.flights.calls|
    requires v.flights == Inflight.Settle(w.flights, call, entry)
    requires entry.Some? ==> From(k, w.recorded, w.flights.calls[call].key.1, entry.value)
    ensures CallsOk(k, v) && Extends(w.flights, v.flights)
  {
    Inflight.SettleValid(w.flights, call, entry);
    forall i | 0 <= i < |v.flights.calls| && v.flights.calls[i].entry.Some?
      ensures From(k, v.recorded, v.flights.calls[i].key.1, v.flights.calls[i].entry.value)
    {
      if i != call || w.flights.calls[i].settled {
        assert v.flights.calls[i] == w.flights.calls[i];
      }
    }
  }

  /** A step that settles a call and moves its leader to a bare phase. */
  lemma SettledMove(k: Keying, w: World, v: World, id: nat, u: Task, call: nat, entry: Option<Entry>)
    requires Safe(k, w) && id in w.tasks && Bare(u.phase) && u == w.tasks[id].(phase := u.phase)
    requires w.tasks[id].leads == Some(call) && call < |w.flights.calls|
    requires entry.Some? ==> entry == w.tasks[id].stored
    requires v == Put(w, id, u).(flights := Inflight.Settle(w.flights, call, entry))
    ensures Safe(k, v)
  {
    var t := w.tasks[id];
    assert TaskOk(k, w.recorded, w.flights, t);
    SettleCalls(k, w, v, call, entry);
    TaskOkMonotone(k, w.recorded, v.recorded, w.flights, v.flights, t);
    BareTask(k, v.recorded, v.flights, t, u);
    TasksKept(k, w, v, {id});
    ReplaysKept(k, w, v);
  }

  lemma SettleShape(k: Keying, w: World, a: Action)
    requires Enabled(k, w, a) && (a.Settle? || a.RefuseEarly?)
    ensures var t := w.tasks[a.id];
            var u := t.(phase := if a.Settle? then Done else Doomed);
            Apply(k, w, a) ==
              if t.leads.Some? && (a.Settle? || t.stale.None?)
              then Put(w, a.id, u).(flights := Inflight.Settle(w.flights, t.leads.value, if a.Settle? then t.stored else None))
              else Put(w, a.id, u)
  {
  }

  lemma StepSettle(k: Keying, w: World, a: Action)
    requires Safe(k, w) && Enabled(k, w, a) && (a.Settle? || a.RefuseEarly?)
    ensures Safe(k, Apply(k, w, a))
  {
    SettleShape(k, w, a);
    var t := w.tasks[a.id];
    var u := t.(phase := if a.Settle? then Done else Doomed);
    assert TaskOk(k, w.recorded, w.flights, t);
    if t.leads.Some? && (a.Settle? || t.stale.None?) {
      SettledMove(k, w, Apply(k, w, a), a.id, u, t.leads.value, if a.Settle? then t.stored else None);
    } else {
      BareTask(k, w.recorded, w.flights, t, u);
      PutOk(k, w, a.id, u);
    }
  }

  /** A replay that touches nothing shared but the log. */
  lemma ServedPlain(k: Keying, w: World, v: World, id: nat, rec: Recorded)
    requires Safe(k, w) && id in w.tasks
    requires rec in w.recorded && Fits(k, rec, w.tasks[id].asker)
    requires v == Put(w, id, w.tasks[id].(phase := Done)).(replays := w.replays + [Replay(w.tasks[id].asker, rec.entry)])
    ensures Safe(k, v)
  {
    assert TaskOk(k, w.recorded, w.flights, w.tasks[id]);
    ReplayAdded(k, w, v, w.tasks[id].asker, rec.entry, rec);
    TasksKept(k, w, v, {id});
  }

  /** Starting a background refresh behind a served entry. */
  lemma RefreshStarted(k: Keying, w: World, v: World, id: nat, background: Task, key: FlightKey)
    requires Safe(k, w) && id !in w.tasks && key !in w.flights.registered
    requires v == Put(w, id, background).(flights := Inflight.Join(w.flights, key).0)
    requires background.phase == Leading && background.leads == Some(|w.flights.calls|) && background.stored.None?
    requires background.index.Some? ==> IsIndex(background.index.value)
    requires background.stale.Some? ==> From(k, w.recorded, Primary(k, background), background.stale.value)
    requires key == (background.node, Primary(k, background))
    ensures Safe(k, v)
  {
    Inflight.JoinValid(w.flights, key);
    TasksKept(k, w, v, {id});
    ReplaysKept(k, w, v);
  }

  /** Refused by the gate or past its last use: the request goes on to join a flight. */
  lemma ServeRefused(k: Keying, w: World, id: nat, now: int, refresh: nat, refreshRequest: Request)
    requires Safe(k, w) && id in w.tasks && w.tasks[id].phase.Found? && refresh !in w.tasks
    requires var t := w.tasks[id]; !Answers(k, t.phase.entry, Primary(k, t), t.asker) || !Servable(t.phase.entry, now)
    ensures Safe(k, ServeStep(k, w, id, now, refresh, refreshRequest))
  {
    var t := w.tasks[id];
    assert TaskOk(k, w.recorded, w.flights, t);
    BareTask(k, w.recorded, w.flights, t, t.(phase := Joining));
    PutOk(k, w, id, t.(phase := Joining));
  }

  /** The replay a stale or fresh answer makes, before any refresh. */
  lemma ServeReplayed(k: Keying, w: World, id: nat) returns (served: World)
    requires SoundKeying(k) && Safe(k, w) && id in w.tasks && w.tasks[id].phase.Found?
    requires var t := w.tasks[id]; Answers(k, t.phase.entry, Primary(k, t), t.asker)
    ensures var t := w.tasks[id];
            && served == Put(w, id, t.(phase := Done)).(replays := w.replays + [Replay(t.asker, t.phase.entry)])
            && Safe(k, served) && From(k, w.recorded, Primary(k, t), t.phase.entry)
            && (t.index.Some? ==> IsIndex(t.index.value))
  {
    var t := w.tasks[id];
    assert TaskOk(k, w.recorded, w.flights, t);
    var rec := ServedMatches(k, w, t);
    served := Put(w, id, t.(phase := Done)).(replays := w.replays + [Replay(t.asker, t.phase.entry)]);
    ServedPlain(k, w, served, id, rec);
  }

  lemma ServeAnswered(k: Keying, w: World, id: nat, now: int, refresh: nat, refreshRequest: Request)
    requires SoundKeying(k) && Safe(k, w) && id in w.tasks && w.tasks[id].phase.Found? && refresh !in w.tasks
    requires var t := w.tasks[id]; Answers(k, t.phase.entry, Primary(k, t), t.asker) && Servable(t.phase.entry, now)
    ensures Safe(k, ServeStep(k, w, id, now, refresh, refreshRequest))
  {
    var t := w.tasks[id];
    var e := t.phase.entry;
    var served := ServeReplayed(k, w, id);
    var key := (t.node, Primary(k, t));
    if !Fresh(e, now) && key !in w.flights.registered {
      var background := Task(t.node, t.asker, refreshRequest, true, Some(e), t.index, Some(|w.flights.calls|), None, None, Leading);
      RefreshStarted(k, served, ServeStep(k, w, id, now, refresh, refreshRequest), refresh, background, key);
    }
  }

  lemma StepServe(k: Keying, w: World, a: Action)
    requires SoundKeying(k) && Safe(k, w) && Enabled(k, w, a) && a.Serve?
    ensures Safe(k, Apply(k, w, a))
  {
    var t := w.tasks[a.id];
    if !Answers(k, t.phase.entry, Primary(k, t), t.asker) || !Servable(t.phase.entry, a.now) {
      ServeRefused(k, w, a.id, a.now, a.refresh, a.refreshRequest);
    } else {
      ServeAnswered(k, w, a.id, a.now, a.refresh, a.refreshRequest);
    }
  }

  lemma StepProbe(k: Keying, w: World, a: Action)
    requires SoundKeying(k) && Safe(k, w) && Enabled(k, w, a) && a.Probe?
    ensures Safe(k, Apply(k, w, a))
  {
    var t := w.tasks[a.id];
    var v := Apply(k, w, a);
    assert TaskOk(k, w.recorded, w.flights, t);
    if v.replays != w.replays {
      var e := w.store[Primary(k, t)];
      assert Kept(k, w.recorded, Primary(k, t), e);
      var rec :| rec in w.recorded && rec.entry == e && Primary(k, t) == StorageKey(e, k.primary(rec.asker));
      GateAfterLookup(k, rec, Primary(k, t), t.asker, []);
      ReplayAdded(k, w, v, t.asker, e, rec);
      assert From(k, w.recorded, Primary(k, t), e);
      TasksKept(k, w, v, {a.id});
    } else {
      OneTaskStep(k, w, v, a.id);
    }
  }

  lemma WakeShape(k: Keying, w: World, a: Action)
    requires Enabled(k, w, a) && a.Wake?
    ensures var t := w.tasks[a.id];
            var outcome := w.flights.calls[t.phase.call].entry;
            Apply(k, w, a) ==
              if outcome.Some? && Answers(k, outcome.value, Primary(k, t), t.asker)
              then Put(w, a.id, t.(phase := Done)).(replays := w.replays + [Replay(t.asker, outcome.value)])
              else Put(w, a.id, t.(phase := Forwarding))
  {
  }

  /** A settled call's entry, if the gate lets it through, was recorded for this follower's resource. */
  lemma HandedOver(k: Keying, w: World, id: nat) returns (rec: Recorded)
    requires SoundKeying(k) && Safe(k, w) && id in w.tasks && w.tasks[id].phase.Following? && w.tasks[id].phase.call < |w.flights.calls|
    requires var t := w.tasks[id];
             var outcome := w.flights.calls[t.phase.call].entry;
             outcome.Some? && Answers(k, outcome.value, Primary(k, t), t.asker)
    ensures rec in w.recorded && rec.entry == w.flights.calls[w.tasks[id].phase.call].entry.value && Fits(k, rec, w.tasks[id].asker)
  {
    var t := w.tasks[id];
    assert TaskOk(k, w.recorded, w.flights, t);
    var call := w.flights.calls[t.phase.call];
    assert From(k, w.recorded, call.key.1, call.entry.value);
    rec :| rec in w.recorded && rec.entry == call.entry.value && k.primary(rec.asker) == Primary(k, t);
    GateAfterHandover(k, rec, t.asker);
  }

  lemma StepWake(k: Keying, w: World, a: Action)
    requires SoundKeying(k) && Safe(k, w) && Enabled(k, w, a) && a.Wake?
    ensures Safe(k, Apply(k, w, a))
  {
    WakeShape(k, w, a);
    var t := w.tasks[a.id];
    var outcome := w.flights.calls[t.phase.call].entry;
    if outcome.Some? && Answers(k, outcome.value, Primary(k, t), t.asker) {
      var rec := HandedOver(k, w, a.id);
      ServedPlain(k, w, Apply(k, w, a), a.id, rec);
    } else {
      assert TaskOk(k, w.recorded, w.flights, t);
      BareTask(k, w.recorded, w.flights, t, t.(phase := Forwarding));
      PutOk(k, w, a.id, t.(phase := Forwarding));
    }
  }

  lemma StoreKept(k: Keying, w: World, v: World, key: string)
    requires StoreOk(k, w) && w.recorded <= v.recorded
    requires forall x :: x in v.store && x != key ==> x in w.store && v.store[x] == w.store[x]
    requires key in v.store && IsResponse(v.store[key]) ==> Kept(k, v.recorded, key, v.store[key])
    ensures StoreOk(k, v)
  {
    forall x | x in v.store && IsResponse(v.store[x]) ensures Kept(k, v.recorded, x, v.store[x]) {
      if x != key {
        KeptMonotone(k, w.recorded, v.recorded, x, v.store[x]);
      }
    }
  }

  lemma CallsKept(k: Keying, w: World, v: World)
    requires CallsOk(k, w) && w.recorded <= v.recorded && v.flights == w.flights
    ensures CallsOk(k, v)
  {
    forall i | 0 <= i < |v.flights.calls| && v.flights.calls[i].entry.Some?
      ensures From(k, v.recorded, v.flights.calls[i].key.1, v.flights.calls[i].entry.value)
    {
      FromMonotone(k, w.recorded, v.recorded, w.flights.calls[i].key.1, w.flights.calls[i].entry.value);
    }
  }

  lemma StepRecord(k: Keying, w: World, a: Action)
    requires Safe(k, w) && Enabled(k, w, a) && a.Record?
    ensures Safe(k, Apply(k, w, a))
  {
    var t := w.tasks[a.id];
    var v := Apply(k, w, a);
    assert TaskOk(k, w.recorded, w.flights, t);
    var rec := Recorded(t.asker, t.sent, a.entry);
    assert rec in v.recorded;
    assert From(k, v.recorded, Primary(k, t), a.entry);
    assert Kept(k, v.recorded, StorageKey(a.entry, Primary(k, t)), a.entry);
    TaskOkMonotone(k, w.recorded, v.recorded, w.flights, v.flights, t);
    TasksKept(k, w, v, {a.id});
    ReplaysKept(k, w, v);
    CallsKept(k, w, v);
    StoreKept(k, w, v, "");
  }

  lemma NotModifiedShape(k: Keying, w: World, a: Action)
    requires Enabled(k, w, a) && a.NotModified?
    ensures var t := w.tasks[a.id];
            var e := Refreshed(t.stale.value, a.now, a.freshFor, a.staleWhileRevalidate);
            Apply(k, w, a) == Put(w, a.id, t.(stored := Some(e), phase := Settling)).(
              recorded := w.recorded + Again(w.recorded, t.stale.value, e),
              store := if a.written then w.store[StorageKey(e, Primary(k, t)) := e] else w.store)
  {
  }

  /** The records of an entry, credited with its refreshed copy. */
  function Again(recorded: set<Recorded>, stale: Entry, e: Entry): set<Recorded> {
    set rec | rec in recorded && rec.entry == stale :: rec.(entry := e)
  }

  lemma RefreshedRecords(k: Keying, recorded: set<Recorded>, stale: Entry, now: int, freshFor: nat, staleWhileRevalidate: nat, primary: string)
    requires (forall rec :: rec in recorded ==> BornKeyed(k, rec)) && From(k, recorded, primary, stale)
    ensures var e := Refreshed(stale, now, freshFor, staleWhileRevalidate);
            var all := recorded + Again(recorded, stale, e);
            && (forall rec :: rec in all ==> BornKeyed(k, rec))
            && From(k, all, primary, e) && Kept(k, all, StorageKey(e, primary), e)
  {
    var e := Refreshed(stale, now, freshFor, staleWhileRevalidate);
    var all := recorded + Again(recorded, stale, e);
    var rec :| rec in recorded && rec.entry == stale && k.primary(rec.asker) == primary;
    assert rec.(entry := e) in all;
    forall x | x in all ensures BornKeyed(k, x) {
      if x !in recorded {
        var y :| y in recorded && y.entry == stale && x == y.(entry := e);
        assert BornKeyed(k, y);
      }
    }
  }

  lemma RefreshedTask(k: Keying, recorded: set<Recorded>, flights: Flights, t: Task, e: Entry)
    requires TaskOk(k, recorded, flights, t) && From(k, recorded, Primary(k, t), e)
    ensures TaskOk(k, recorded, flights, t.(stored := Some(e), phase := Settling))
  {
  }

  lemma StepNotModified(k: Keying, w: World, a: Action)
    requires Safe(k, w) && Enabled(k, w, a) && a.NotModified?
    ensures Safe(k, Apply(k, w, a))
  {
    NotModifiedShape(k, w, a);
    var t := w.tasks[a.id];
    var v := Apply(k, w, a);
    assert TaskOk(k, w.recorded, w.flights, t);
    var e := Refreshed(t.stale.value, a.now, a.freshFor, a.staleWhileRevalidate);
    RefreshedRecords(k, w.recorded, t.stale.value, a.now, a.freshFor, a.staleWhileRevalidate, Primary(k, t));
    NotModifiedSafe(k, w, v, a.id, e);
  }

  lemma NotModifiedSafe(k: Keying, w: World, v: World, id: nat, e: Entry)
    requires Safe(k, w) && id in w.tasks && w.recorded <= v.recorded && RecordsOk(k, v)
    requires From(k, v.recorded, Primary(k, w.tasks[id]), e) && Kept(k, v.recorded, StorageKey(e, Primary(k, w.tasks[id])), e)
    requires v == Put(w, id, w.tasks[id].(stored := Some(e), phase := Settling)).(recorded := v.recorded, store := v.store)
    requires v.store == w.store || v.store == w.store[StorageKey(e, Primary(k, w.tasks[id])) := e]
    ensures Safe(k, v)
  {
    var t := w.tasks[id];
    assert TaskOk(k, w.recorded, w.flights, t);
    TaskOkMonotone(k, w.recorded, v.recorded, w.flights, v.flights, t);
    RefreshedTask(k, v.recorded, v.flights, t, e);
    TasksKept(k, w, v, {id});
    ReplaysKept(k, w, v);
    CallsKept(k, w, v);
    StoreKept(k, w, v, StorageKey(e, Primary(k, t)));
  }

  /** Writing one record the store may hold, and moving the writer on. */
  lemma Written(k: Keying, w: World, v: World, id: nat, t: Task, key: string, e: Entry)
    requires Safe(k, w) && v == Put(w, id, t).(store := w.store[key := e])
    requires TaskOk(k, w.recorded, w.flights, t)
    requires IsResponse(e) ==> Kept(k, w.recorded, key, e)
    ensures Safe(k, v)
  {
    TasksKept(k, w, v, {id});
    ReplaysKept(k, w, v);
    StoreKept(k, w, v, key);
  }

  lemma WroteTask(k: Keying, recorded: set<Recorded>, flights: Flights, t: Task, u: Task)
    requires TaskOk(k, recorded, flights, t) && t.phase.Storing?
    requires u == t.(stored := Some(t.phase.entry), phase := u.phase)
    requires u.phase == Settling || (u.phase.Indexing? && !IsResponse(u.phase.record))
    ensures TaskOk(k, recorded, flights, u)
  {
  }

  lemma WriteVariantShape(k: Keying, w: World, a: Action) returns (u: Task)
    requires Enabled(k, w, a) && a.WriteVariant?
    ensures var t := w.tasks[a.id];
            var (published, admitted) := AdmitVariant(k, t.index, t.phase.entry, Primary(k, t));
            && u == t.(stored := Some(t.phase.entry), phase := u.phase)
            && (u.phase == Settling || (u.phase.Indexing? && !IsResponse(u.phase.record)))
            && Apply(k, w, a) ==
               if admitted && a.written then Put(w, a.id, u).(store := w.store[StorageKey(t.phase.entry, Primary(k, t)) := t.phase.entry])
               else Put(w, a.id, u)
  {
    u := Apply(k, w, a).tasks[a.id];
  }

  lemma StepWriteVariant(k: Keying, w: World, a: Action)
    requires Safe(k, w) && Enabled(k, w, a) && a.WriteVariant?
    ensures Safe(k, Apply(k, w, a))
  {
    var t := w.tasks[a.id];
    assert TaskOk(k, w.recorded, w.flights, t);
    var u := WriteVariantShape(k, w, a);
    WroteTask(k, w.recorded, w.flights, t, u);
    if AdmitVariant(k, t.index, t.phase.entry, Primary(k, t)).1 && a.written {
      Written(k, w, Apply(k, w, a), a.id, u, StorageKey(t.phase.entry, Primary(k, t)), t.phase.entry);
    } else {
      PutOk(k, w, a.id, u);
    }
  }

  lemma StepWriteIndex(k: Keying, w: World, a: Action)
    requires Safe(k, w) && Enabled(k, w, a) && a.WriteIndex?
    ensures Safe(k, Apply(k, w, a))
  {
    var t := w.tasks[a.id];
    assert TaskOk(k, w.recorded, w.flights, t);
    var v := Apply(k, w, a);
    if a.written {
      Written(k, w, v, a.id, t.(phase := Settling), Primary(k, t), t.phase.record);
    } else {
      OneTaskStep(k, w, v, a.id);
    }
  }

  /** The steps of a lookup, a flight and a fetch. */
  predicate Serving(a: Action) {
    a.Arrive? || a.LookUp? || a.FollowIndex? || a.Serve? || a.Join? || a.Wake? || a.Abandon? || a.StopWaiting? || a.NothingStorable? || a.Probe?
  }

  lemma ServingSafe(k: Keying, w: World, a: Action)
    requires SoundKeying(k) && Safe(k, w) && Enabled(k, w, a) && Serving(a)
    ensures Safe(k, Apply(k, w, a))
  {
    if a.LookUp? { StepLookUp(k, w, a); }
    else if a.FollowIndex? { StepFollowIndex(k, w, a); }
    else if a.Serve? { StepServe(k, w, a); }
    else if a.Join? { StepJoin(k, w, a); }
    else if a.Wake? { StepWake(k, w, a); }
    else if a.Probe? { StepProbe(k, w, a); }
    else { StepFetch(k, w, a); }
  }

  lemma StoringSafe(k: Keying, w: World, a: Action)
    requires SoundKeying(k) && Safe(k, w) && Enabled(k, w, a) && !Serving(a)
    ensures Safe(k, Apply(k, w, a))
  {
    if a.RefuseEarly? || a.Settle? { StepSettle(k, w, a); }
    else if a.Record? { StepRecord(k, w, a); }
    else if a.NotModified? { StepNotModified(k, w, a); }
    else if a.WriteVariant? { StepWriteVariant(k, w, a); }
    else if a.WriteIndex? { StepWriteIndex(k, w, a); }
    else if a.AskLease? || a.ReleaseLease? { StepLease(k, w, a); }
    else { StepForget(k, w, a); }
  }

  lemma StepSafe(k: Keying, w: World, a: Action)
    requires SoundKeying(k) && Safe(k, w) && Enabled(k, w, a)
    ensures Safe(k, Apply(k, w, a))
  {
    if Serving(a) { ServingSafe(k, w, a); } else { StoringSafe(k, w, a); }
  }

  /** Every run, from any safe world: the invariant holds throughout. */
  lemma {:induction false} RunSafe(k: Keying, w: World, actions: seq<Action>, v: World)
    requires SoundKeying(k) && Safe(k, w) && Reaches(k, w, actions, v)
    ensures Safe(k, v)
    decreases |actions|
  {
    if actions != [] {
      StepSafe(k, w, actions[0]);
      RunSafe(k, Apply(k, w, actions[0]), actions[1..], v);
    }
  }

  /** A leader goes on to fetch exactly when it does not find its lease taken: no answer, no question and a win all let it. */
  lemma OnlyTakenWaits(k: Keying, w: World, a: Action)
    requires Enabled(k, w, a) && a.AskLease?
    ensures var t := w.tasks[a.id];
            Apply(k, w, a).tasks[a.id].phase == Forwarding <==>
            !(t.allowsStored && a.asked && a.answered && LeaseKey(Primary(k, t)) in w.leases)
  {
    var t := w.tasks[a.id];
    var key := LeaseKey(Primary(k, t));
    assert Leases.IsTaken(Leases.Claim(w.leases, key, a.token).1) <==> key in w.leases;
  }

  // ---- Nobody waits on a call no one will settle ----

  /** A step leaves every leader leading, until it settles its call, and makes leaders only by joining. */
  ghost predicate LeadsOn(w: World, a: Action, v: World) {
    forall id :: id in w.tasks ==>
      && id in v.tasks
      && (LeadsNothing(v.tasks[id].phase) && LeadsNothing(w.tasks[id].phase) ==> v.tasks[id].leads == w.tasks[id].leads)
      && (LeadsNothing(v.tasks[id].phase) ==> LeadsNothing(w.tasks[id].phase))
      && (w.tasks[id].leads.Some? && w.tasks[id].phase != Done ==>
            v.tasks[id].leads == w.tasks[id].leads && (v.tasks[id].phase != Done || (a.Settle? && a.id == id)))
  }

  lemma LeadsOnLookup(k: Keying, w: World, a: Action)
    requires LeadersOnly(w) && Enabled(k, w, a) && (a.Arrive? || a.LookUp? || a.FollowIndex?)
    ensures LeadsOn(w, a, Apply(k, w, a))
  {
  }

  lemma LeadsOnFetch(k: Keying, w: World, a: Action)
    requires LeadersOnly(w) && Enabled(k, w, a) && (a.StopWaiting? || a.NothingStorable?)
    ensures LeadsOn(w, a, Apply(k, w, a))
  {
  }

  lemma LeadsOnRecord(k: Keying, w: World, a: Action)
    requires LeadersOnly(w) && Enabled(k, w, a) && (a.Record? || a.Abandon?)
    ensures LeadsOn(w, a, Apply(k, w, a))
  {
  }

  lemma LeadsOnWriteVariant(k: Keying, w: World, a: Action)
    requires LeadersOnly(w) && Enabled(k, w, a) && a.WriteVariant?
    ensures LeadsOn(w, a, Apply(k, w, a))
  {
  }

  lemma LeadsOnWriteIndex(k: Keying, w: World, a: Action)
    requires LeadersOnly(w) && Enabled(k, w, a) && a.WriteIndex?
    ensures LeadsOn(w, a, Apply(k, w, a))
  {
  }

  lemma LeadsOnSettle(k: Keying, w: World, a: Action)
    requires LeadersOnly(w) && Enabled(k, w, a) && a.Settle?
    ensures LeadsOn(w, a, Apply(k, w, a))
  {
  }

  lemma LeadsOnRefuseEarly(k: Keying, w: World, a: Action)
    requires LeadersOnly(w) && Enabled(k, w, a) && a.RefuseEarly?
    ensures LeadsOn(w, a, Apply(k, w, a))
  {
  }

  lemma LeadsOnForget(k: Keying, w: World, a: Action)
    requires LeadersOnly(w) && Enabled(k, w, a) && (a.DropRecord? || a.ExpireLease?)
    ensures LeadsOn(w, a, Apply(k, w, a))
  {
  }

  lemma LeadsOnAskLease(k: Keying, w: World, a: Action)
    requires LeadersOnly(w) && Enabled(k, w, a) && a.AskLease?
    ensures LeadsOn(w, a, Apply(k, w, a))
  {
  }

  lemma LeadsOnReleaseLease(k: Keying, w: World, a: Action)
    requires LeadersOnly(w) && Enabled(k, w, a) && a.ReleaseLease?
    ensures LeadsOn(w, a, Apply(k, w, a))
  {
  }

  lemma LeadsOnRevalidate(k: Keying, w: World, a: Action)
    requires LeadersOnly(w) && Enabled(k, w, a) && (a.NotModified? || a.Probe?)
    ensures LeadsOn(w, a, Apply(k, w, a))
  {
  }

  lemma LeadsOnJoin(k: Keying, w: World, a: Action)
    requires LeadersOnly(w) && Enabled(k, w, a) && a.Join?
    ensures LeadsOn(w, a, Apply(k, w, a))
  {
  }

  lemma LeadsOnWake(k: Keying, w: World, a: Action)
    requires LeadersOnly(w) && Enabled(k, w, a) && a.Wake?
    ensures LeadsOn(w, a, Apply(k, w, a))
  {
  }

  lemma LeadsOnServe(k: Keying, w: World, a: Action)
    requires LeadersOnly(w) && Enabled(k, w, a) && a.Serve?
    ensures LeadsOn(w, a, Apply(k, w, a))
  {
    ServeTasks(k, w, a.id, a.now, a.refresh, a.refreshRequest);
  }

  /** Serving moves its own task on and may start one refresh; every other task stays. */
  lemma ServeTasks(k: Keying, w: World, id: nat, now: int, refresh: nat, refreshRequest: Request)
    requires id in w.tasks && w.tasks[id].phase.Found? && refresh !in w.tasks
    ensures var v := ServeStep(k, w, id, now, refresh, refreshRequest);
            && id in v.tasks && v.tasks[id].phase in {Joining, Done} && v.tasks[id] == w.tasks[id].(phase := v.tasks[id].phase)
            && (forall i :: i in w.tasks && i != id ==> i in v.tasks && v.tasks[i] == w.tasks[i])
  {
  }

  lemma StepLeadsOn(k: Keying, w: World, a: Action)
    requires LeadersOnly(w) && Enabled(k, w, a)
    ensures LeadsOn(w, a, Apply(k, w, a))
  {
    if a.Arrive? || a.LookUp? || a.FollowIndex? { LeadsOnLookup(k, w, a); }
    else if a.StopWaiting? || a.NothingStorable? { LeadsOnFetch(k, w, a); }
    else if a.Record? || a.Abandon? { LeadsOnRecord(k, w, a); }
    else if a.WriteVariant? { LeadsOnWriteVariant(k, w, a); }
    else if a.WriteIndex? { LeadsOnWriteIndex(k, w, a); }
    else if a.Settle? { LeadsOnSettle(k, w, a); }
    else if a.RefuseEarly? { LeadsOnRefuseEarly(k, w, a); }
    else if a.DropRecord? || a.ExpireLease? { LeadsOnForget(k, w, a); }
    else if a.AskLease? { LeadsOnAskLease(k, w, a); }
    else if a.ReleaseLease? { LeadsOnReleaseLease(k, w, a); }
    else if a.NotModified? || a.Probe? { LeadsOnRevalidate(k, w, a); }
    else if a.Join? { LeadsOnJoin(k, w, a); }
    else if a.Wake? { LeadsOnWake(k, w, a); }
    else { LeadsOnServe(k, w, a); }
  }

  lemma LeadersStayLeaders(k: Keying, w: World, a: Action)
    requires LeadersOnly(w) && Enabled(k, w, a)
    ensures LeadersOnly(Apply(k, w, a))
  {
    StepLeadsOn(k, w, a);
    var v := Apply(k, w, a);
    forall id | id in v.tasks && LeadsNothing(v.tasks[id].phase) ensures v.tasks[id].leads.None? {
      if id !in w.tasks {
        NewTaskLeads(k, w, a, id);
      }
    }
  }

  lemma NewTaskLeads(k: Keying, w: World, a: Action, id: nat)
    requires Enabled(k, w, a) && id !in w.tasks && id in Apply(k, w, a).tasks
    ensures LeadsNothing(Apply(k, w, a).tasks[id].phase) ==> Apply(k, w, a).tasks[id].leads.None?
  {
    if a.Arrive? {
      ArrivalLeads(k, w, a, id);
    } else if a.Serve? {
      RefreshLeads(k, w, a.id, a.now, a.refresh, a.refreshRequest, id);
    } else {
      NoNewTask(k, w, a);
    }
  }

  lemma ArrivalLeads(k: Keying, w: World, a: Action, id: nat)
    requires Enabled(k, w, a) && a.Arrive? && id !in w.tasks && id in Apply(k, w, a).tasks
    ensures Apply(k, w, a).tasks[id].leads.None?
  {
  }

  lemma RefreshLeads(k: Keying, w: World, id: nat, now: int, refresh: nat, refreshRequest: Request, new': nat)
    requires id in w.tasks && w.tasks[id].phase.Found? && refresh !in w.tasks
    requires new' !in w.tasks && new' in ServeStep(k, w, id, now, refresh, refreshRequest).tasks
    ensures !LeadsNothing(ServeStep(k, w, id, now, refresh, refreshRequest).tasks[new'].phase)
  {
  }

  /** Only arrivals and refreshes make tasks. */
  lemma NoNewTask(k: Keying, w: World, a: Action)
    requires Enabled(k, w, a) && !a.Arrive? && !a.Serve?
    ensures Apply(k, w, a).tasks.Keys == w.tasks.Keys
  {
    if Serving(a) || a.AskLease? || a.ReleaseLease? { NoNewWhileServing(k, w, a); } else { NoNewWhileStoring(k, w, a); }
  }

  lemma NoNewWhileServing(k: Keying, w: World, a: Action)
    requires Enabled(k, w, a) && (Serving(a) || a.AskLease? || a.ReleaseLease?) && !a.Arrive? && !a.Serve?
    ensures Apply(k, w, a).tasks.Keys == w.tasks.Keys
  {
  }

  lemma NoNewWhileStoring(k: Keying, w: World, a: Action)
    requires Enabled(k, w, a) && !Serving(a) && !a.AskLease? && !a.ReleaseLease?
    ensures Apply(k, w, a).tasks.Keys == w.tasks.Keys
  {
  }

  /** Calls are never removed, a settled one never changes, and a new one comes with its leader. */
  ghost predicate CallsGrow(w: World, v: World) {
    && |w.flights.calls| <= |v.flights.calls| <= |w.flights.calls| + 1
    && (forall i :: 0 <= i < |w.flights.calls| && w.flights.calls[i].settled ==> v.flights.calls[i] == w.flights.calls[i])
    && (|v.flights.calls| > |w.flights.calls| ==> exists id :: id in v.tasks && Leads(v.tasks[id], |w.flights.calls|))
  }

  lemma CallsGrowJoining(k: Keying, w: World, a: Action)
    requires Inflight.Valid(w.flights) && Enabled(k, w, a) && (a.Join? || a.Serve?)
    ensures CallsGrow(w, Apply(k, w, a))
  {
    var v := Apply(k, w, a);
    Inflight.JoinValid(w.flights, (w.tasks[a.id].node, Primary(k, w.tasks[a.id])));
    if |w.flights.calls| < |v.flights.calls| {
      assert Leads(v.tasks[if a.Join? then a.id else a.refresh], |w.flights.calls|);
    }
  }

  lemma CallsGrowSettling(k: Keying, w: World, a: Action)
    requires Inflight.Valid(w.flights) && Enabled(k, w, a) && (a.Settle? || a.RefuseEarly?)
    ensures CallsGrow(w, Apply(k, w, a))
    ensures a.Settle? && w.tasks[a.id].leads.Some? ==> Apply(k, w, a).flights.calls[w.tasks[a.id].leads.value].settled
  {
    if w.tasks[a.id].leads.Some? {
      Inflight.SettleValid(w.flights, w.tasks[a.id].leads.value, if a.Settle? then w.tasks[a.id].stored else None);
    }
  }

  lemma CallsOnlyGrow(k: Keying, w: World, a: Action)
    requires Inflight.Valid(w.flights) && Enabled(k, w, a)
    ensures var v := Apply(k, w, a);
            CallsGrow(w, v) && (a.Settle? && w.tasks[a.id].leads.Some? ==> v.flights.calls[w.tasks[a.id].leads.value].settled)
  {
    if a.Settle? || a.RefuseEarly? {
      CallsGrowSettling(k, w, a);
    } else if a.Join? || a.Serve? {
      CallsGrowJoining(k, w, a);
    } else {
      assert Apply(k, w, a).flights == w.flights;
    }
  }

  /** Leaders that lead on still cover every unsettled call. */
  lemma LedKept(w: World, a: Action, v: World)
    requires Led(w) && CallsGrow(w, v) && LeadsOn(w, a, v)
    requires a.Settle? && a.id in w.tasks && w.tasks[a.id].leads.Some? ==>
               w.tasks[a.id].leads.value < |v.flights.calls| && v.flights.calls[w.tasks[a.id].leads.value].settled
    ensures Led(v)
  {
    forall i | 0 <= i < |v.flights.calls| && !v.flights.calls[i].settled
      ensures exists id :: id in v.tasks && Leads(v.tasks[id], i)
    {
      if i < |w.flights.calls| {
        var id :| id in w.tasks && Leads(w.tasks[id], i);
        assert Leads(v.tasks[id], i);
      }
    }
  }

  lemma StepLed(k: Keying, w: World, a: Action)
    requires Inflight.Valid(w.flights) && LeadersOnly(w) && Led(w) && Enabled(k, w, a)
    ensures Led(Apply(k, w, a))
  {
    CallsOnlyGrow(k, w, a);
    StepLeadsOn(k, w, a);
    LedKept(w, a, Apply(k, w, a));
  }

  /** In every run, every call a follower could wait on is settled already or has a live leader. */
  lemma {:induction false} NoFollowerStranded(k: Keying, w: World, actions: seq<Action>, v: World)
    requires SoundKeying(k) && Safe(k, w) && LeadersOnly(w) && Led(w) && Reaches(k, w, actions, v)
    ensures Led(v)
    decreases |actions|
  {
    if actions != [] {
      StepSafe(k, w, actions[0]);
      LeadersStayLeaders(k, w, actions[0]);
      StepLed(k, w, actions[0]);
      NoFollowerStranded(k, Apply(k, w, actions[0]), actions[1..], v);
    }
  }

  // ---- The fleet's own keys ----

  /** Keys as the proxies derive them: options are per service, the hash is whatever it is. */
  function FleetKeying(h: Hash, options: string -> KeyOptions, maxVariants: nat): Keying {
    Keying(
      (r: Request) => PrimaryKey(h, r, options(r.service)),
      (p: string, v: seq<string>, r: Request) => VariantKey(h, p, v, r),
      (e: Entry, r: Request) => CacheEncoding.Readable(e, r),
      (key: string) => var digest: string := h(key); digest[..VARIANT_DIGEST_LENGTH],
      maxVariants
    )
  }

  lemma FleetKeyingSound(h: Hash, options: string -> KeyOptions, maxVariants: nat)
    ensures SoundKeying(FleetKeying(h, options, maxVariants))
  {
    var k := FleetKeying(h, options, maxVariants);
    forall p: string, v: seq<string>, r: Request | v != []
      ensures |k.variant(p, v, r)| == |p| + VARIANT_DIGEST_LENGTH && k.variant(p, v, r)[..|p|] == p
    {
      VariantShape(h, p, v, r);
    }
    forall q: Request, r: Request, v: seq<string>, s: Request | v != []
      ensures k.primary(q) != k.variant(k.primary(r), v, s)
    {
      KeySpacesDisjoint(h, q, options(q.service), r, options(r.service), v, s);
    }
  }

  /** Two requests for one resource of one service, or two different field lists with one digest. */
  ghost predicate OneResource(h: Hash, options: string -> KeyOptions, q: Request, r: Request) {
    var o := options(r.service);
    q.service == r.service
    && (Addressable(PrimaryFields(q, o)) && Addressable(PrimaryFields(r, o)) ==>
        SameResource(o, q, r) || Collision(h, FrameAll(PrimaryFields(q, o)), FrameAll(PrimaryFields(r, o))))
  }

  /** Agreement on every field of a vary list, or two different value lists with one truncated digest. */
  ghost predicate OneVariant(h: Hash, primary: string, varyOn: seq<string>, q: Request, r: Request) {
    var a, b := VariantFields(primary, varyOn, q), VariantFields(primary, varyOn, r);
    Addressable(a) && Addressable(b) ==> SameFields(varyOn, q, r) || TruncatedCollision(h, FrameAll(a), FrameAll(b))
  }

  /** A body section 12.5.3 of RFC 9110 lets this client be sent, or an unencoded one it refused. */
  predicate AcceptableTo(e: Entry, r: Request) {
    var coding := FieldValue(e.header, "Content-Encoding");
    || CacheEncoding.Acceptable(CacheEncoding.AcceptField(r), coding)
    || (CacheEncoding.Uncoded(coding) && CacheEncoding.RefusesIdentity(r.accept))
  }

  lemma SameKeyOneResource(h: Hash, options: string -> KeyOptions, q: Request, r: Request)
    requires PrimaryKey(h, q, options(q.service)) == PrimaryKey(h, r, options(r.service))
    ensures OneResource(h, options, q, r)
  {
    EqualKeysSameService(h, q, options(q.service), r, options(r.service));
    var o := options(r.service);
    if Addressable(PrimaryFields(q, o)) && Addressable(PrimaryFields(r, o)) {
      EqualPrimaryKeys(h, o, q, r);
    }
  }

  lemma SameKeyOneVariant(h: Hash, primary: string, varyOn: seq<string>, q: Request, r: Request)
    requires VariantKey(h, primary, varyOn, q) == VariantKey(h, primary, varyOn, r)
    ensures OneVariant(h, primary, varyOn, q, r)
  {
    if Addressable(VariantFields(primary, varyOn, q)) && Addressable(VariantFields(primary, varyOn, r)) {
      EqualVariantKeys(h, primary, primary, varyOn, q, r);
    }
  }

  lemma ReadableAcceptable(e: Entry, r: Request)
    requires CacheEncoding.Readable(e, r)
    ensures AcceptableTo(e, r)
  {
    CacheEncoding.AcceptsAgreesIff(r.accept, FieldValue(e.header, "Content-Encoding"));
  }

  /** What the gate's key comparison means, read in the requests themselves. */
  lemma FitsMeans(h: Hash, options: string -> KeyOptions, maxVariants: nat, rec: Recorded, r: Request)
    requires Fits(FleetKeying(h, options, maxVariants), rec, r)
    ensures OneResource(h, options, rec.asker, r) && AcceptableTo(rec.entry, r)
    ensures OneVariant(h, PrimaryKey(h, r, options(r.service)), rec.entry.varyOn, rec.sent, r)
  {
    SameKeyOneResource(h, options, rec.asker, r);
    SameKeyOneVariant(h, PrimaryKey(h, r, options(r.service)), rec.entry.varyOn, rec.sent, r);
    ReadableAcceptable(rec.entry, r);
  }

  /**
   * The cache's promise, over every interleaving of requests on any number of
   * proxies: whatever is replayed -- by lookup, by coalescing, by lease wait --
   * was recorded for a request for the same resource of the same service, that
   * sent the same on every field of the response's own vary list, in a coding the
   * client accepts. The ways around it are collisions, which the
   * statement exhibits, and a client that refuses unencoded bodies.
   */
  lemma ReplayedWasRecordedForTheSame(
    h: Hash, options: string -> KeyOptions, maxVariants: nat, actions: seq<Action>, v: World, i: nat)
    requires Reaches(FleetKeying(h, options, maxVariants), INITIAL, actions, v) && i < |v.replays|
    ensures var Replay(r, e) := v.replays[i];
            AcceptableTo(e, r)
            && exists rec :: rec in v.recorded && rec.entry == e && OneResource(h, options, rec.asker, r)
                             && OneVariant(h, PrimaryKey(h, r, options(r.service)), e.varyOn, rec.sent, r)
  {
    var k := FleetKeying(h, options, maxVariants);
    FleetKeyingSound(h, options, maxVariants);
    RunSafe(k, INITIAL, actions, v);
    var Replay(r, e) := v.replays[i];
    assert Matched(k, v.recorded, r, e);
    var rec :| rec in v.recorded && rec.entry == e && Fits(k, rec, r);
    FitsMeans(h, options, maxVariants, rec, r);
  }

  /** The recorder could read the body, and this client can too because the key says so -- or can anyway. */
  predicate ReadableTo(rec: Recorded, r: Request) {
    || CacheEncoding.Readable(rec.entry, r)
    || (CacheEncoding.Readable(rec.entry, rec.sent) && ACCEPT_ENCODING in rec.entry.varyOn
        && CacheEncoding.KeyableCoding(FieldValue(rec.entry.header, "Content-Encoding")))
  }

  lemma EqualRequestFits(h: Hash, options: string -> KeyOptions, maxVariants: nat, rec: Recorded, r: Request)
    requires SameResource(options(r.service), rec.asker, r)
    requires SameFields(rec.entry.varyOn, rec.sent, r) && ReadableTo(rec, r)
    ensures Fits(FleetKeying(h, options, maxVariants), rec, r)
  {
    var primary := PrimaryKey(h, r, options(r.service));
    SameResourceSameKey(h, options(r.service), rec.asker, r);
    SameValuesSameVariantKey(h, primary, rec.entry.varyOn, rec.sent, r);
    if !CacheEncoding.Readable(rec.entry, r) {
      assert SameField(rec.sent, r, ACCEPT_ENCODING);
      KeyValueIff(rec.sent, r, ACCEPT_ENCODING);
      CacheEncoding.SharedKeySharedReading(rec.sent.accept, r.accept, FieldValue(rec.entry.header, "Content-Encoding"));
    }
  }

  /**
   * Negotiated store, then lookup: a request for the same resource that sent the
   * same on the response's vary fields -- Accept-Encoding compared as the set of
   * codings it accepts -- finds exactly that response for as long as it is
   * servable and neither record is dropped or overwritten, and the gate lets it
   * through.
   */
  lemma NegotiatedRoundTrip(
    h: Hash, options: string -> KeyOptions, maxVariants: nat, rec: Recorded, index: Option<Entry>,
    before: map<string, Entry>, after: map<string, Entry>, r: Request, now: int)
    requires var k := FleetKeying(h, options, maxVariants);
             var (here, there) := (k.primary(rec.asker), StorageKey(rec.entry, k.primary(rec.asker)));
             var stored := StoreVariant(k, before, index, rec.entry, here);
             && BornKeyed(k, rec) && AdmitVariant(k, index, rec.entry, here).1
             && here in after && after[here] == stored[here] && there in after && after[there] == stored[there]
    requires SameResource(options(r.service), rec.asker, r)
    requires SameFields(rec.entry.varyOn, rec.sent, r) && ReadableTo(rec, r) && Servable(rec.entry, now)
    ensures var k := FleetKeying(h, options, maxVariants);
            Lookup(k, ReadAt(after, now), r) == Some(rec.entry) && Answers(k, rec.entry, k.primary(r), r)
  {
    var k := FleetKeying(h, options, maxVariants);
    FleetKeyingSound(h, options, maxVariants);
    EqualRequestFits(h, options, maxVariants, rec, r);
    StoredIsFound(k, rec, index, before, after, r, now);
  }
}
