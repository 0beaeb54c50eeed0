/**
 * The response cache as a step system: any number of proxies sharing one store,
 * any number of requests on each, every store command, flight operation and
 * lease command one atomic step.
 */
module CacheProtocol {
  import opened Text
  import opened CacheEntry
  import opened CacheKeys
  import opened CacheVariant
  import Inflight
  import Leases

  /** Flights are per proxy, so their key is the proxy and the resource. */
  type FlightKey = (nat, string)
  type Flights = Inflight.Flights<FlightKey, Entry>

  datatype Phase =
    | Looking                              // about to read the resource's own key
    | Redirected                           // an index was found; about to read the variant it names
    | Found(entry: Entry, key: string)     // a record is in hand; the serve decision is next
    | Joining                              // nothing served; about to join the flight
    | Leading                              // leads its node's flight; the lease is next
    | Waiting                              // another proxy holds the lease; polling for what it publishes
    | Forwarding                           // the request is at the target
    | Doomed                               // the response cannot be stored, and is still streaming
    | Storing(entry: Entry)                // a storable response is complete; about to write it
    | Indexing(record: Entry)              // variant written; about to publish its index
    | Settling                             // about to hand the outcome to the flight
    | Following(call: nat)                 // waits on its node's leader
    | Done

  /**
   * One request being answered, or one background refresh. `asker` is the client
   * request, whose primary key is used throughout; `sent` goes upstream, and for
   * a refresh differs from it in its preconditions.
   */
  datatype Task = Task(
    node: nat,
    asker: Request,
    sent: Request,
    allowsStored: bool,
    stale: Option<Entry>,
    index: Option<Entry>,
    leads: Option<nat>,
    token: Option<string>,
    stored: Option<Entry>,
    phase: Phase
  )

  /** A response replayed to a client from a copy. */
  datatype Replay = Replay(request: Request, entry: Entry)

  datatype World = World(
    store: map<string, Entry>,
    leases: Leases.Table,
    flights: Flights,
    tasks: map<nat, Task>,
    recorded: set<Recorded>,
    replays: seq<Replay>
  )

  const INITIAL := World(map[], map[], Inflight.NoFlights(), map[], {}, [])

  datatype Action =
    | Arrive(id: nat, node: nat, request: Request, allowsStored: bool)
    | LookUp(id: nat, hit: bool)
    | FollowIndex(id: nat, hit: bool)
    | Serve(id: nat, now: int, refresh: nat, refreshRequest: Request)
    | Join(id: nat)
    | AskLease(id: nat, asked: bool, answered: bool, token: string)
    | Probe(id: nat, now: int, hit: bool)
    | StopWaiting(id: nat)
    | RefuseEarly(id: nat)
    | NothingStorable(id: nat)
    | Record(id: nat, entry: Entry)
    | NotModified(id: nat, now: int, freshFor: nat, staleWhileRevalidate: nat, written: bool)
    | WriteVariant(id: nat, written: bool)
    | WriteIndex(id: nat, written: bool)
    | Settle(id: nat)
    | Wake(id: nat)
    | Abandon(id: nat)
    | ReleaseLease(id: nat)
    | DropRecord(key: string)
    | ExpireLease(key: string)

  function Primary(k: Keying, t: Task): string {
    k.primary(t.asker)
  }

  function LeaseKey(primary: string): string {
    "kp:l:" + TrimPrefix(primary, KEY_PREFIX)
  }

  predicate At(w: World, id: nat, phase: Phase) {
    id in w.tasks && w.tasks[id].phase == phase
  }

  predicate Enabled(k: Keying, w: World, a: Action) {
    match a
    case Arrive(id, _, _, _) => id !in w.tasks
    case LookUp(id, hit) => At(w, id, Looking) && (hit ==> Primary(k, w.tasks[id]) in w.store)
    case FollowIndex(id, hit) =>
      At(w, id, Redirected) && w.tasks[id].index.Some?
      && (hit ==> k.variant(Primary(k, w.tasks[id]), w.tasks[id].index.value.varyOn, w.tasks[id].asker) in w.store)
    case Serve(id, _, refresh, _) => id in w.tasks && w.tasks[id].phase.Found? && refresh !in w.tasks
    case Join(id) => At(w, id, Joining)
    case AskLease(id, _, _, _) => At(w, id, Leading)
    case Probe(id, _, hit) => At(w, id, Waiting) && (hit ==> Primary(k, w.tasks[id]) in w.store)
    case StopWaiting(id) => At(w, id, Waiting)
    case RefuseEarly(id) => At(w, id, Forwarding) && (w.tasks[id].leads.Some? ==> w.tasks[id].leads.value < |w.flights.calls|)
    case NothingStorable(id) => At(w, id, Forwarding) || At(w, id, Doomed)
    case Record(id, entry) => At(w, id, Forwarding) && BornKeyed(k, Recorded(w.tasks[id].asker, w.tasks[id].sent, entry))
    case NotModified(id, _, _, _, _) => At(w, id, Forwarding) && w.tasks[id].stale.Some?
    case WriteVariant(id, _) => id in w.tasks && w.tasks[id].phase.Storing?
    case WriteIndex(id, _) => id in w.tasks && w.tasks[id].phase.Indexing?
    case Settle(id) => At(w, id, Settling) && (w.tasks[id].leads.Some? ==> w.tasks[id].leads.value < |w.flights.calls|)
    case Wake(id) =>
      id in w.tasks && w.tasks[id].phase.Following? && w.tasks[id].phase.call < |w.flights.calls|
      && w.flights.calls[w.tasks[id].phase.call].settled
    case Abandon(id) => id in w.tasks && w.tasks[id].phase.Following?
    case ReleaseLease(id) => id in w.tasks && w.tasks[id].token.Some? && w.tasks[id].phase in {Doomed, Settling, Done}
    case DropRecord(_) => true
    case ExpireLease(_) => true
  }

  function Put(w: World, id: nat, t: Task): World {
    w.(tasks := w.tasks[id := t])
  }

  /** Answering from a record in hand: replay if the gate and its lifetime allow, refreshing behind a stale one. */
  function ServeStep(k: Keying, w: World, id: nat, now: int, refresh: nat, refreshRequest: Request): World
    requires id in w.tasks && w.tasks[id].phase.Found? && refresh !in w.tasks
  {
    var t := w.tasks[id];
    var e := t.phase.entry;
    if !Answers(k, e, Primary(k, t), t.asker) || !Servable(e, now) then Put(w, id, t.(phase := Joining))
    else
      var served := Put(w, id, t.(phase := Done)).(replays := w.replays + [Replay(t.asker, e)]);
      if Fresh(e, now) then served
      else
        var (flights, call, leader) := Inflight.Join(w.flights, (t.node, Primary(k, t)));
        if !leader then served
        else
          var background := Task(t.node, t.asker, refreshRequest, true, Some(e), t.index, Some(call), None, None, Leading);
          Put(served, refresh, background).(flights := flights)
  }

  function Apply(k: Keying, w: World, a: Action): World
    requires Enabled(k, w, a)
  {
    match a
    case Arrive(id, node, request, allowsStored) =>
      Put(w, id, Task(node, request, request, allowsStored, None, None, None, None, None,
                      if allowsStored then Looking else Joining))
    case LookUp(id, hit) =>
      var t := w.tasks[id];
      var key := Primary(k, t);
      if !hit then Put(w, id, t.(phase := Joining))
      else if IsIndex(w.store[key]) then Put(w, id, t.(index := Some(w.store[key]), phase := Redirected))
      else Put(w, id, t.(phase := Found(w.store[key], key)))
    case FollowIndex(id, hit) =>
      var t := w.tasks[id];
      var key := k.variant(Primary(k, t), t.index.value.varyOn, t.asker);
      Put(w, id, t.(phase := if hit then Found(w.store[key], key) else Joining))
    case Serve(id, now, refresh, refreshRequest) => ServeStep(k, w, id, now, refresh, refreshRequest)
    case Join(id) =>
      var t := w.tasks[id];
      var (flights, call, leader) := Inflight.Join(w.flights, (t.node, Primary(k, t)));
      var next := if leader then t.(leads := Some(call), phase := Leading) else t.(phase := Following(call));
      Put(w, id, next).(flights := flights)
    case AskLease(id, asked, answered, token) =>
      // asked: the request may wait on others and the breaker is closed. answered: Redis replied.
      var t := w.tasks[id];
      var key := LeaseKey(Primary(k, t));
      if !t.allowsStored || !asked || !answered then Put(w, id, t.(phase := Forwarding))
      else
        var (leases, lease) := Leases.Claim(w.leases, key, token);
        if Leases.IsTaken(lease) then Put(w, id, t.(phase := if t.stale.Some? then Settling else Waiting))
        else Put(w, id, t.(token := Some(token), phase := Forwarding)).(leases := leases)
    case Probe(id, now, hit) =>
      var t := w.tasks[id];
      if hit && Fresh(w.store[Primary(k, t)], now) && Answers(k, w.store[Primary(k, t)], Primary(k, t), t.asker) then
        var e := w.store[Primary(k, t)];
        Put(w, id, t.(stored := Some(e), phase := Settling)).(replays := w.replays + [Replay(t.asker, e)])
      else w
    case StopWaiting(id) => Put(w, id, w.tasks[id].(phase := Forwarding))
    case RefuseEarly(id) =>
      // Only a foreground leader has an early hook; followers and refreshes just stream.
      var t := w.tasks[id];
      var doomed := Put(w, id, t.(phase := Doomed));
      if t.leads.Some? && t.stale.None? then doomed.(flights := Inflight.Settle(w.flights, t.leads.value, None)) else doomed
    case NothingStorable(id) => Put(w, id, w.tasks[id].(phase := Settling))
    case Record(id, entry) =>
      var t := w.tasks[id];
      Put(w, id, t.(phase := Storing(entry))).(recorded := w.recorded + {Recorded(t.asker, t.sent, entry)})
    case NotModified(id, now, freshFor, staleWhileRevalidate, written) =>
      // The stored copy restarts its life, credited to whoever it was recorded for.
      var t := w.tasks[id];
      var e := Refreshed(t.stale.value, now, freshFor, staleWhileRevalidate);
      var again := set rec | rec in w.recorded && rec.entry == t.stale.value :: rec.(entry := e);
      Put(w, id, t.(stored := Some(e), phase := Settling)).(
        recorded := w.recorded + again, store := if written then w.store[StorageKey(e, Primary(k, t)) := e] else w.store)
    case WriteVariant(id, written) =>
      var t := w.tasks[id];
      var e := t.phase.entry;
      var (published, admitted) := AdmitVariant(k, t.index, e, Primary(k, t));
      var next := t.(stored := Some(e), phase := if published.Some? then Indexing(published.value) else Settling);
      if admitted && written then Put(w, id, next).(store := w.store[StorageKey(e, Primary(k, t)) := e])
      else Put(w, id, next)
    case WriteIndex(id, written) =>
      var t := w.tasks[id];
      var next := Put(w, id, t.(phase := Settling));
      if written then next.(store := w.store[Primary(k, t) := t.phase.record]) else next
    case Settle(id) =>
      var t := w.tasks[id];
      var done := Put(w, id, t.(phase := Done));
      if t.leads.Some? then done.(flights := Inflight.Settle(w.flights, t.leads.value, t.stored)) else done
    case Wake(id) =>
      var t := w.tasks[id];
      var outcome := w.flights.calls[t.phase.call].entry;
      if outcome.Some? && Answers(k, outcome.value, Primary(k, t), t.asker)
      then Put(w, id, t.(phase := Done)).(replays := w.replays + [Replay(t.asker, outcome.value)])
      else Put(w, id, t.(phase := Forwarding))
    case Abandon(id) => Put(w, id, w.tasks[id].(phase := Done))
    case ReleaseLease(id) =>
      var t := w.tasks[id];
      var lease := Leases.Lease(Leases.Acquired, LeaseKey(Primary(k, t)), t.token.value);
      Put(w, id, t.(token := None)).(leases := Leases.Release(w.leases, lease))
    case DropRecord(key) => w.(store := w.store - {key})
    case ExpireLease(key) => w.(leases := Leases.Expire(w.leases, key))
  }

  ghost predicate Reaches(k: Keying, w: World, actions: seq<Action>, v: World)
    decreases |actions|
  {
    if actions == [] then w == v
    else Enabled(k, w, actions[0]) && Reaches(k, Apply(k, w, actions[0]), actions[1..], v)
  }

  // ---- What every step keeps ----

  /** Recorded for some request of this resource. */
  ghost predicate From(k: Keying, recorded: set<Recorded>, primary: string, e: Entry) {
    exists rec :: rec in recorded && rec.entry == e && k.primary(rec.asker) == primary
  }

  /** Recorded, and belonging at this key. */
  ghost predicate Kept(k: Keying, recorded: set<Recorded>, key: string, e: Entry) {
    exists rec :: rec in recorded && rec.entry == e && key == StorageKey(e, k.primary(rec.asker))
  }

  ghost predicate RecordsOk(k: Keying, w: World) {
    forall rec :: rec in w.recorded ==> BornKeyed(k, rec)
  }

  ghost predicate StoreOk(k: Keying, w: World) {
    forall key :: key in w.store && IsResponse(w.store[key]) ==> Kept(k, w.recorded, key, w.store[key])
  }

  ghost predicate CallsOk(k: Keying, w: World) {
    && Inflight.Valid(w.flights)
    && (forall i :: 0 <= i < |w.flights.calls| && w.flights.calls[i].entry.Some? ==>
          From(k, w.recorded, w.flights.calls[i].key.1, w.flights.calls[i].entry.value))
  }

  /** A flight this task holds a handle on is its own node's flight for its own resource. */
  predicate OwnCall(k: Keying, flights: Flights, t: Task, call: nat) {
    call < |flights.calls| && flights.calls[call].key == (t.node, Primary(k, t))
  }

  ghost predicate TaskOk(k: Keying, recorded: set<Recorded>, flights: Flights, t: Task) {
    && (t.index.Some? ==> IsIndex(t.index.value))
    && (t.phase.Redirected? ==> t.index.Some?)
    && (t.phase.Found? ==>
          && (t.phase.key == Primary(k, t)
              || (t.index.Some? && t.phase.key == k.variant(Primary(k, t), t.index.value.varyOn, t.asker)))
          && (IsResponse(t.phase.entry) ==> Kept(k, recorded, t.phase.key, t.phase.entry)))
    && (t.phase.Storing? ==> From(k, recorded, Primary(k, t), t.phase.entry)
                             && Kept(k, recorded, StorageKey(t.phase.entry, Primary(k, t)), t.phase.entry))
    && (t.phase.Indexing? ==> !IsResponse(t.phase.record))
    && (t.phase.Following? ==> OwnCall(k, flights, t, t.phase.call))
    && (t.leads.Some? ==> OwnCall(k, flights, t, t.leads.value))
    && (t.stored.Some? ==> From(k, recorded, Primary(k, t), t.stored.value))
    && (t.stale.Some? ==> From(k, recorded, Primary(k, t), t.stale.value))
  }

  ghost predicate TasksOk(k: Keying, w: World) {
    forall id :: id in w.tasks ==> TaskOk(k, w.recorded, w.flights, w.tasks[id])
  }

  /** The replayed bytes were recorded for a request this one matches. */
  ghost predicate Matched(k: Keying, recorded: set<Recorded>, r: Request, e: Entry) {
    exists rec :: rec in recorded && rec.entry == e && Fits(k, rec, r)
  }

  ghost predicate ReplaysOk(k: Keying, w: World) {
    forall i :: 0 <= i < |w.replays| ==> Matched(k, w.recorded, w.replays[i].request, w.replays[i].entry)
  }

  /** The phases before a task leads or follows anything, and while it follows. */
  predicate LeadsNothing(p: Phase) {
    p.Looking? || p.Redirected? || p.Found? || p.Joining? || p.Following?
  }

  predicate Leads(t: Task, call: nat) {
    t.leads == Some(call) && t.phase != Done
  }

  ghost predicate LeadersOnly(w: World) {
    forall id :: id in w.tasks && LeadsNothing(w.tasks[id].phase) ==> w.tasks[id].leads.None?
  }

  /** Every unsettled call has a task that will settle it. */
  ghost predicate Led(w: World) {
    forall i :: 0 <= i < |w.flights.calls| && !w.flights.calls[i].settled ==>
      exists id :: id in w.tasks && Leads(w.tasks[id], i)
  }

  ghost predicate Safe(k: Keying, w: World) {
    RecordsOk(k, w) && StoreOk(k, w) && CallsOk(k, w) && TasksOk(k, w) && ReplaysOk(k, w)
  }

  // ---- Monotonicity ----

  predicate Extends(f: Flights, g: Flights) {
    |f.calls| <= |g.calls| && forall i :: 0 <= i < |f.calls| ==> g.calls[i].key == f.calls[i].key
  }

  lemma FromMonotone(k: Keying, a: set<Recorded>, b: set<Recorded>, primary: string, e: Entry)
    requires a <= b && From(k, a, primary, e)
    ensures From(k, b, primary, e)
  {
    var rec :| rec in a && rec.entry == e && k.primary(rec.asker) == primary;
    assert rec in b;
  }

  lemma KeptMonotone(k: Keying, a: set<Recorded>, b: set<Recorded>, key: string, e: Entry)
    requires a <= b && Kept(k, a, key, e)
    ensures Kept(k, b, key, e)
  {
    var rec :| rec in a && rec.entry == e && key == StorageKey(e, k.primary(rec.asker));
    assert rec in b;
  }

  lemma TaskOkMonotone(k: Keying, a: set<Recorded>, b: set<Recorded>, f: Flights, g: Flights, t: Task)
    requires a <= b && Extends(f, g) && TaskOk(k, a, f, t)
    ensures TaskOk(k, b, g, t)
  {
    if t.phase.Found? && IsResponse(t.phase.entry) { KeptMonotone(k, a, b, t.phase.key, t.phase.entry); }
    if t.phase.Storing? {
      FromMonotone(k, a, b, Primary(k, t), t.phase.entry);
      KeptMonotone(k, a, b, StorageKey(t.phase.entry, Primary(k, t)), t.phase.entry);
    }
    if t.stored.Some? { FromMonotone(k, a, b, Primary(k, t), t.stored.value); }
    if t.stale.Some? { FromMonotone(k, a, b, Primary(k, t), t.stale.value); }
  }

  /** If records only grow, flights only extend, and the touched tasks are fine, all tasks are. */
  lemma TasksKept(k: Keying, w: World, v: World, touched: set<nat>)
    requires TasksOk(k, w) && w.recorded <= v.recorded && Extends(w.flights, v.flights)
    requires forall id :: id in v.tasks && id !in touched ==> id in w.tasks && v.tasks[id] == w.tasks[id]
    requires forall id :: id in touched && id in v.tasks ==> TaskOk(k, v.recorded, v.flights, v.tasks[id])
    ensures TasksOk(k, v)
  {
    forall id | id in v.tasks ensures TaskOk(k, v.recorded, v.flights, v.tasks[id]) {
      if id !in touched {
        TaskOkMonotone(k, w.recorded, v.recorded, w.flights, v.flights, w.tasks[id]);
      }
    }
  }

  lemma ReplaysKept(k: Keying, w: World, v: World)
    requires ReplaysOk(k, w) && w.recorded <= v.recorded && v.replays == w.replays
    ensures ReplaysOk(k, v)
  {
    forall i | 0 <= i < |v.replays| ensures Matched(k, v.recorded, v.replays[i].request, v.replays[i].entry) {
      assert Matched(k, w.recorded, w.replays[i].request, w.replays[i].entry);
      var rec :| rec in w.recorded && rec.entry == w.replays[i].entry && Fits(k, rec, w.replays[i].request);
      assert rec in v.recorded;
    }
  }

  lemma ReplayAdded(k: Keying, w: World, v: World, r: Request, e: Entry, rec: Recorded)
    requires ReplaysOk(k, w) && v.recorded == w.recorded && v.replays == w.replays + [Replay(r, e)]
    requires rec in w.recorded && rec.entry == e && Fits(k, rec, r)
    ensures ReplaysOk(k, v)
  {
    forall i | 0 <= i < |v.replays| ensures Matched(k, v.recorded, v.replays[i].request, v.replays[i].entry) {
      if i < |w.replays| { assert v.replays[i] == w.replays[i]; }
    }
  }

  /** A record read back at a key a request looked at belongs to this request, if the gate says so. */
  lemma ServedMatches(k: Keying, w: World, t: Task) returns (rec: Recorded)
    requires SoundKeying(k) && RecordsOk(k, w) && t.phase.Found? && TaskOk(k, w.recorded, w.flights, t)
    requires Answers(k, t.phase.entry, Primary(k, t), t.asker)
    ensures rec in w.recorded && rec.entry == t.phase.entry && Fits(k, rec, t.asker)
  {
    rec :| rec in w.recorded && rec.entry == t.phase.entry
           && t.phase.key == StorageKey(t.phase.entry, k.primary(rec.asker));
    var follow := if t.index.Some? then t.index.value.varyOn else [];
    GateAfterLookup(k, rec, t.phase.key, t.asker, follow);
  }
}
