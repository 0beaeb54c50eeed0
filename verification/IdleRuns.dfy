/** The controller with everything around it: operations in progress, requests parked and requests admitted. */
module IdleRuns {
  import opened Text
  import opened IdleController

  /**
   * Operations are named by the generation they were started in. `down` is whether
   * the containers were last stopped, rather than started or deployed, by an
   * operation nothing had overtaken; `lastActive` is when something last kept the
   * service awake. Both are kept by the actions, not by the controller.
   */
  datatype World = World(
    ctl: Ctl,
    wakes: set<nat>,
    stops: set<nat>,
    cancelled: set<nat>,
    parked: map<nat, nat>,
    admitted: set<nat>,
    down: bool,
    lastActive: nat
  )

  datatype Action =
    | Arrive(id: nat, now: nat)
    | Retry(id: nat, now: nat)
    | Leave(id: nat)
    | End(id: nat, now: nat)
    | WakeDone(wake: nat, error: Option<string>, now: nat)
    | TrySleep(now: nat)
    | StopDone(stop: nat, failed: bool, now: nat)
    | Reset(refs: seq<string>, now: nat)
    | Reconfigure(sleepAfter: int, wakeTimeout: int, refs: seq<string>, now: nat)
    | Restore
    | Disable
    | Enable(now: nat)
    | Close

  predicate Enabled(w: World, a: Action) {
    match a
    case Arrive(id, _) => id !in w.parked && id !in w.admitted
    case Retry(id, _) => id in w.parked && w.parked[id] < w.ctl.changed
    case Leave(id) => id in w.parked
    case End(id, _) => id in w.admitted
    case WakeDone(wake, _, _) => wake in w.wakes
    case StopDone(stop, _, _) => stop in w.stops
    case _ => true
  }

  function Requested(w: World, id: nat, now: nat): World {
    var (ctl, verdict) := Admit(w.ctl, now);
    var wakes := if ctl.generation != w.ctl.generation then w.wakes + {ctl.generation} else w.wakes;
    var waiting := w.parked - {id};
    match verdict
    case Admitted => w.(ctl := ctl, wakes := wakes, parked := waiting, admitted := w.admitted + {id}, lastActive := now)
    case Rejected(_) => w.(ctl := ctl, wakes := wakes, parked := waiting)
    case Parked(channel) => w.(ctl := ctl, wakes := wakes, parked := waiting[id := channel])
  }

  function Cancelling(w: World): set<nat> {
    if w.ctl.cancel.Some? then w.cancelled + {w.ctl.cancel.value} else w.cancelled
  }

  function Apply(w: World, a: Action): World
    requires Enabled(w, a)
  {
    match a
    case Arrive(id, now) => Requested(w, id, now)
    case Retry(id, now) => Requested(w, id, now)
    case Leave(id) => w.(parked := w.parked - {id})
    case End(id, now) => w.(ctl := EndRequest(w.ctl, now), admitted := w.admitted - {id}, lastActive := now)
    case WakeDone(wake, error, now) =>
      var started := wake == w.ctl.generation && error.None?;
      w.(ctl := FinishWake(w.ctl, wake, error, now), wakes := w.wakes - {wake},
         down := w.down && !started, lastActive := if started then now else w.lastActive)
    case TrySleep(now) =>
      var ctl := BeginSleep(w.ctl, now);
      w.(ctl := ctl, stops := if MaySleep(w.ctl, now) then w.stops + {ctl.generation} else w.stops)
    case StopDone(stop, failed, now) =>
      var current := stop == w.ctl.generation;
      w.(ctl := FinishStop(w.ctl, stop, failed, now), stops := w.stops - {stop},
         down := w.down || (current && !failed), lastActive := if current && failed then now else w.lastActive)
    case Reset(refs, now) => w.(ctl := Redirect(w.ctl, refs, now), cancelled := Cancelling(w), down := false, lastActive := now)
    case Reconfigure(sleepAfter, wakeTimeout, refs, now) =>
      var moved := refs != w.ctl.refs;
      w.(ctl := Configure(w.ctl, sleepAfter, wakeTimeout, refs, now), cancelled := if moved then Cancelling(w) else w.cancelled,
         down := w.down && !moved, lastActive := if moved then now else w.lastActive)
    case Restore => w.(ctl := RestoreSleeping(w.ctl), down := w.down || w.ctl.state == Active)
    case Disable => w.(ctl := w.ctl.(disabled := true))
    case Enable(now) => w.(ctl := IdleController.Enable(w.ctl, now), lastActive := now)
    case Close => w.(ctl := w.ctl.(cancel := None), cancelled := Cancelling(w))
  }

  ghost predicate Reaches(w: World, actions: seq<Action>, v: World)
    decreases |actions|
  {
    if actions == [] then w == v
    else Enabled(w, actions[0]) && Reaches(Apply(w, actions[0]), actions[1..], v)
  }

  // ---- What every step keeps ----

  /** Waking and stopping have exactly one live operation of the current generation; active and sleeping have none. */
  ghost predicate OperationsMatch(w: World) {
    && (w.ctl.generation in w.wakes <==> w.ctl.state == Waking)
    && (w.ctl.generation in w.stops <==> w.ctl.state == Stopping)
    && (forall g :: g in w.wakes || g in w.stops ==> g <= w.ctl.generation)
    && w.wakes !! w.stops
  }

  /** A request on a channel not yet closed waits for an operation in progress. */
  ghost predicate WaitersMatch(w: World) {
    forall id :: id in w.parked ==>
      && w.parked[id] <= w.ctl.changed
      && (w.parked[id] == w.ctl.changed ==> w.ctl.state == Waking || w.ctl.state == Stopping)
      && id !in w.admitted
  }

  ghost predicate RequestsMatch(w: World) {
    && w.ctl.inflight == |w.admitted|
    && (w.ctl.state == Stopping ==> w.admitted == {})
  }

  ghost predicate ErrorsMatch(c: Ctl) {
    c.retryAfter > 0 ==> c.lastErr.Some?
  }

  /** A cancellable wake is the current one, and a current wake that is not cancellable was cancelled. */
  ghost predicate CancelMatches(w: World) {
    && (w.ctl.cancel.Some? ==> w.ctl.state == Waking && w.ctl.cancel.value == w.ctl.generation)
    && (w.ctl.state == Waking ==> w.ctl.cancel.Some? || w.ctl.generation in w.cancelled)
    && (forall g :: g in w.cancelled ==> g <= w.ctl.generation && g !in w.stops)
  }

  /** The controller's state and idle clock say what happened. */
  ghost predicate HistoryMatches(w: World) {
    (w.down <==> w.ctl.state == Sleeping || w.ctl.state == Waking) && w.ctl.lastRequest == w.lastActive
  }

  ghost predicate Inv(w: World) {
    OperationsMatch(w) && WaitersMatch(w) && RequestsMatch(w) && ErrorsMatch(w.ctl) && CancelMatches(w) && HistoryMatches(w)
  }

  lemma RequestedActive(w: World, id: nat, now: nat)
    requires Inv(w) && id !in w.admitted && w.ctl.state == Active
    ensures Inv(Requested(w, id, now))
  {
    var v := Requested(w, id, now);
    assert v.ctl.generation == w.ctl.generation && v.ctl.changed == w.ctl.changed;
    assert |v.admitted| == |w.admitted| + 1;
  }

  lemma RequestedElsewhere(w: World, id: nat, now: nat)
    requires Inv(w) && id !in w.admitted && w.ctl.state != Active
    ensures Inv(Requested(w, id, now))
  {
    var v := Requested(w, id, now);
    assert v.admitted == w.admitted;
  }

  lemma StepRequest(w: World, a: Action)
    requires Inv(w) && Enabled(w, a) && (a.Arrive? || a.Retry? || a.Leave? || a.End?)
    ensures Inv(Apply(w, a))
  {
    if a.Arrive? || a.Retry? {
      if w.ctl.state == Active { RequestedActive(w, a.id, a.now); } else { RequestedElsewhere(w, a.id, a.now); }
    } else if a.End? {
      assert w.admitted == Apply(w, a).admitted + {a.id};
    }
  }

  lemma StepOperation(w: World, a: Action)
    requires Inv(w) && Enabled(w, a) && (a.WakeDone? || a.StopDone? || a.TrySleep?)
    ensures Inv(Apply(w, a))
  {
    if a.WakeDone? && a.error.Some? {
      WakeBackoffLaw(w.ctl.failures + 1);
    }
  }

  lemma StepRedirect(w: World, a: Action)
    requires Inv(w) && Enabled(w, a) && (a.Reset? || a.Reconfigure?)
    ensures Inv(Apply(w, a))
  {
  }

  lemma StepSwitch(w: World, a: Action)
    requires Inv(w) && Enabled(w, a) && (a.Restore? || a.Disable? || a.Enable? || a.Close?)
    ensures Inv(Apply(w, a))
  {
  }

  lemma StepControl(w: World, a: Action)
    requires Inv(w) && Enabled(w, a)
    requires a.Reset? || a.Reconfigure? || a.Restore? || a.Disable? || a.Enable? || a.Close?
    ensures Inv(Apply(w, a))
  {
    if a.Reset? || a.Reconfigure? { StepRedirect(w, a); } else { StepSwitch(w, a); }
  }

  lemma StepInv(w: World, a: Action)
    requires Inv(w) && Enabled(w, a)
    ensures Inv(Apply(w, a))
  {
    if a.Arrive? || a.Retry? || a.Leave? || a.End? {
      StepRequest(w, a);
    } else if a.WakeDone? || a.StopDone? || a.TrySleep? {
      StepOperation(w, a);
    } else {
      StepControl(w, a);
    }
  }

  /** Every state of every run satisfies the invariant. */
  lemma {:induction false} RunInv(w: World, actions: seq<Action>, v: World)
    requires Inv(w) && Reaches(w, actions, v)
    ensures Inv(v)
    decreases |actions|
  {
    if actions != [] {
      StepInv(w, actions[0]);
      RunInv(Apply(w, actions[0]), actions[1..], v);
    }
  }

  function Start(refs: seq<string>, sleepAfter: int, wakeTimeout: int, hasLifecycle: bool, now: nat): World {
    World(NewCtl(refs, sleepAfter, wakeTimeout, hasLifecycle, now), {}, {}, {}, map[], {}, false, now)
  }

  /** A new controller is awake, with nothing behind it, and waits half a minute for a wake unless told otherwise. */
  lemma StartLaw(refs: seq<string>, sleepAfter: int, wakeTimeout: int, hasLifecycle: bool, now: nat)
    ensures var c := Start(refs, sleepAfter, wakeTimeout, hasLifecycle, now).ctl;
            && c.state == Active && c.refs == refs && c.inflight == 0 && c.lastRequest == now && !c.disabled
            && c.sleepAfter == sleepAfter && c.wakeTimeout == (if wakeTimeout <= 0 then 30 else wakeTimeout)
            && c.lastErr.None? && c.failures == 0 && c.retryAfter == 0 && c.cancel.None? && c.hasLifecycle == hasLifecycle
  {
  }

  /** From a new controller, in every reachable state. */
  lemma ReachableInv(
    refs: seq<string>, sleepAfter: int, wakeTimeout: int, hasLifecycle: bool, now: nat, actions: seq<Action>, v: World)
    requires Reaches(Start(refs, sleepAfter, wakeTimeout, hasLifecycle, now), actions, v)
    ensures Inv(v)
  {
    RunInv(Start(refs, sleepAfter, wakeTimeout, hasLifecycle, now), actions, v);
  }

  // ---- What it means ----

  /** No waiter is stranded: the operation its channel waits on is live, and ends by closing it, however it ends. */
  lemma NoWaiterStranded(w: World, id: nat, error: Option<string>, failed: bool, now: nat)
    requires Inv(w) && id in w.parked && w.parked[id] == w.ctl.changed
    ensures var g := w.ctl.generation;
            || (g in w.wakes && w.parked[id] < Apply(w, WakeDone(g, error, now)).ctl.changed)
            || (g in w.stops && w.parked[id] < Apply(w, StopDone(g, failed, now)).ctl.changed)
  {
  }

  /** A parked request that is free to ask again stays free to for as long as it is parked there. */
  lemma RetryOnlyAfterTransition(w: World, actions: seq<Action>, v: World, id: nat, now: nat)
    requires Inv(w) && id in w.parked && Reaches(w, actions, v) && id in v.parked && v.parked[id] == w.parked[id]
    ensures Enabled(w, Retry(id, now)) ==> Enabled(v, Retry(id, now))
  {
    RunForward(w, actions, v);
  }

  /** While a stop's generation is current, no admitted request is in flight. */
  lemma StopsOnlyWhenIdle(w: World, stop: nat)
    requires Inv(w) && stop in w.stops && stop == w.ctl.generation
    ensures w.admitted == {} && w.ctl.inflight == 0
  {
  }

  /**
   * A request is admitted exactly while the containers are up and no stop has
   * begun; it is turned away, with the error of the wake that failed, exactly while
   * they are down and that wake's pause lasts; otherwise it waits, having started
   * the one wake there is if there was none.
   */
  lemma AdmissionLaw(w: World, now: nat)
    requires Inv(w)
    ensures var (ctl, verdict) := Admit(w.ctl, now);
            && (verdict.Admitted? <==> !w.down && w.ctl.generation !in w.stops)
            && (verdict.Admitted? ==> ctl.inflight == w.ctl.inflight + 1)
            && (!verdict.Admitted? ==> ctl.inflight == w.ctl.inflight)
            && (verdict.Rejected? <==> w.down && w.ctl.generation !in w.wakes && now < w.ctl.retryAfter)
            && (verdict.Rejected? ==> verdict.error.Some? && verdict.error == w.ctl.lastErr)
            && (verdict.Parked? ==> verdict.channel == ctl.changed && (ctl.state == Waking || ctl.state == Stopping))
            && (ctl.generation != w.ctl.generation <==> verdict.Parked? && w.down && w.ctl.generation !in w.wakes)
  {
  }

  /** The stop in progress leaves the service asleep if it succeeded, and awake for a whole idle period if it did not. */
  lemma StopOutcome(w: World, failed: bool, now: nat)
    requires Inv(w) && w.ctl.state == Stopping
    ensures var a := StopDone(w.ctl.generation, failed, now);
            && Enabled(w, a)
            && Apply(w, a).ctl.state == (if failed then Active else Sleeping)
            && Apply(w, a).ctl.lastRequest == (if failed then now else w.ctl.lastRequest)
  {
  }

  /** The wake in progress leaves the service awake exactly when it had no error; an error is kept, and holds wakes back for its pause. */
  lemma WakeOutcome(w: World, error: Option<string>, now: nat)
    requires Inv(w) && w.ctl.state == Waking
    ensures var a := WakeDone(w.ctl.generation, error, now);
            var c := Apply(w, a).ctl;
            && Enabled(w, a)
            && c.state == (if error.None? then Active else Sleeping) && c.lastErr == error
            && (error.None? ==> c.failures == 0 && c.retryAfter == 0 && c.lastRequest == now)
            && (error.Some? ==> c.failures == w.ctl.failures + 1 && c.retryAfter == now + Pause(c.failures))
  {
  }

  /** One second, then twice as long each time, and half a minute at most. */
  function Pause(failures: nat): nat {
    if failures <= 1 then 1 else if failures == 2 then 2 else if failures == 3 then 4
    else if failures == 4 then 8 else if failures == 5 then 16 else 30
  }

  /** What starts containers or replaces them. */
  predicate Starts(a: Action) {
    (a.WakeDone? && a.error.None?) || a.Reset? || a.Reconfigure?
  }

  lemma DownStep(w: World, a: Action)
    requires Inv(w) && w.down && Enabled(w, a) && !Starts(a)
    ensures Apply(w, a).down && Apply(w, a).admitted <= w.admitted
  {
  }

  /** Once the containers are stopped, whatever else happens, nobody is admitted until they are started or replaced. */
  lemma {:induction false} NobodyAdmittedWhileDown(w: World, actions: seq<Action>, v: World)
    requires Inv(w) && w.down && Reaches(w, actions, v) && forall i :: 0 <= i < |actions| ==> !Starts(actions[i])
    ensures v.down && v.admitted <= w.admitted
    decreases |actions|
  {
    if actions != [] {
      StepInv(w, actions[0]);
      DownStep(w, actions[0]);
      NobodyAdmittedWhileDown(Apply(w, actions[0]), actions[1..], v);
    }
  }

  /**
   * A stop begins exactly when the service may sleep, is up with nobody admitted and
   * nothing in progress, and nothing has kept it awake for the whole idle period.
   */
  lemma SleepsExactlyWhenIdle(w: World, now: nat)
    requires Inv(w)
    ensures var v := Apply(w, TrySleep(now));
            && (v.ctl.state == Stopping && w.ctl.state != Stopping <==>
                && !w.ctl.disabled && w.ctl.hasLifecycle && w.ctl.refs != [] && w.ctl.sleepAfter > 0
                && !w.down && w.ctl.generation !in w.stops && w.admitted == {}
                && now - w.lastActive >= w.ctl.sleepAfter)
            && (v.ctl.state == w.ctl.state ==> v.ctl == w.ctl && v.stops == w.stops)
  {
    assert w.admitted == {} <==> w.ctl.inflight == 0;
  }

  /** Generations and channels only move forward. */
  lemma StepForward(w: World, a: Action)
    requires Enabled(w, a)
    ensures w.ctl.generation <= Apply(w, a).ctl.generation && w.ctl.changed <= Apply(w, a).ctl.changed
  {
    if a.Arrive? || a.Retry? { RequestForward(w, a.id, a.now); } else { ControlForward(w, a); }
  }

  lemma RequestForward(w: World, id: nat, now: nat)
    ensures w.ctl.generation <= Requested(w, id, now).ctl.generation && w.ctl.changed <= Requested(w, id, now).ctl.changed
  {
  }

  lemma ControlForward(w: World, a: Action)
    requires Enabled(w, a) && !a.Arrive? && !a.Retry?
    ensures w.ctl.generation <= Apply(w, a).ctl.generation && w.ctl.changed <= Apply(w, a).ctl.changed
  {
  }

  lemma {:induction false} RunForward(w: World, actions: seq<Action>, v: World)
    requires Reaches(w, actions, v)
    ensures w.ctl.generation <= v.ctl.generation && w.ctl.changed <= v.ctl.changed
    decreases |actions|
  {
    if actions != [] {
      StepForward(w, actions[0]);
      RunForward(Apply(w, actions[0]), actions[1..], v);
    }
  }

  /** Once overtaken, an operation changes no controller state whenever it ends, however much happens first. */
  lemma SupersededChangesNothing(w: World, actions: seq<Action>, v: World, g: nat, error: Option<string>, failed: bool, now: nat)
    requires g < w.ctl.generation && Reaches(w, actions, v)
    ensures g in v.wakes ==> Apply(v, WakeDone(g, error, now)).ctl == v.ctl
    ensures g in v.stops ==> Apply(v, StopDone(g, failed, now)).ctl == v.ctl
  {
    RunForward(w, actions, v);
  }

  /** A redeploy supersedes whatever is in progress: nothing running belongs to the new generation. */
  lemma ResetSupersedes(w: World, refs: seq<string>, now: nat)
    requires Inv(w)
    ensures var v := Apply(w, Reset(refs, now));
            && v.ctl.state == Active && (forall g :: g in v.wakes || g in v.stops ==> g < v.ctl.generation)
            && v.ctl.refs == refs && v.ctl.lastErr.None? && v.ctl.failures == 0 && v.ctl.retryAfter == 0
  {
    StepInv(w, Reset(refs, now));
    var v := Apply(w, Reset(refs, now));
    assert v.ctl.generation == w.ctl.generation + 1;
  }

  /** Pausing only keeps the service from going to sleep, and resuming lets it again, a whole idle period from then. */
  lemma PauseLaw(w: World, now: nat)
    ensures Apply(w, Disable) == w.(ctl := w.ctl.(disabled := true))
    ensures Apply(w, Enable(now)) == w.(ctl := w.ctl.(disabled := false, lastRequest := now), lastActive := now)
  {
  }

  /** Settings alone leave the state as it is; another set of containers is a redeploy. */
  lemma ReconfigureLaw(w: World, sleepAfter: int, wakeTimeout: int, refs: seq<string>, now: nat)
    requires Inv(w)
    ensures var v := Apply(w, Reconfigure(sleepAfter, wakeTimeout, refs, now)).ctl;
            && v.sleepAfter == sleepAfter && v.wakeTimeout == (if wakeTimeout <= 0 then 30 else wakeTimeout)
            && v == (if refs == w.ctl.refs then w.ctl else Apply(w, Reset(refs, now)).ctl).(sleepAfter := v.sleepAfter, wakeTimeout := v.wakeTimeout)
  {
  }

  /**
   * But it does not always stop it: the operation it superseded goes on
   * uncancelled exactly when it is a stop, which no context reaches.
   */
  lemma ResetCancelsExactlyWakes(w: World, refs: seq<string>, now: nat)
    requires Inv(w) && (w.ctl.state == Waking || w.ctl.state == Stopping)
    ensures var v := Apply(w, Reset(refs, now));
            var g := w.ctl.generation;
            (g in v.wakes || g in v.stops) && (g !in v.cancelled <==> w.ctl.state == Stopping)
  {
  }

  /** A run that ends active with a stop still going against the containers it was deployed over. */
  lemma StaleStopOutlivesReset()
    ensures exists actions, v ::
              Reaches(Start(["app"], 1, 30, true, 0), actions, v) && v.ctl.state == Active && v.ctl.refs == ["app"] && v.stops != {}
  {
    var w0 := Start(["app"], 1, 30, true, 0);
    var a0, a1 := TrySleep(1), Reset(["app"], 1);
    var w1 := Apply(w0, a0);
    var w2 := Apply(w1, a1);
    assert Reaches(w2, [], w2);
    assert [a0, a1][1..] == [a1] && [a1][1..] == [];
    assert Reaches(w1, [a1], w2);
    assert Reaches(w0, [a0, a1], w2);
    assert 1 in w2.stops;
  }
}
