/**
 * Scale to zero: the controller that stops an idle service's containers and
 * starts them again for the next request. Each critical section under its lock
 * is one operation on `Ctl`; the class applies them in place.
 */
module IdleController {
  import opened Text

  const DEFAULT_WAKE_TIMEOUT: nat := 30
  const MAX_WAKE_BACKOFF: nat := 30

  datatype State = Active | Stopping | Sleeping | Waking

  /** Times are seconds; zero is the unset time. A channel is numbered by the transition that will close it. */
  datatype Ctl = Ctl(
    state: State,
    generation: nat,
    refs: seq<string>,
    inflight: nat,
    lastRequest: nat,
    sleepAfter: int,
    wakeTimeout: nat,
    lastErr: Option<string>,
    failures: nat,
    retryAfter: nat,
    disabled: bool,
    hasLifecycle: bool,
    cancel: Option<nat>,   // the wake whose context can be cancelled, by generation
    changed: nat
  )

  /** What admission decided: a slot, a refusal, or the channel to wait on. */
  datatype Verdict = Admitted | Rejected(error: Option<string>) | Parked(channel: nat)

  function NewCtl(refs: seq<string>, sleepAfter: int, wakeTimeout: int, hasLifecycle: bool, now: nat): Ctl {
    Ctl(Active, 0, refs, 0, now, sleepAfter, if wakeTimeout <= 0 then DEFAULT_WAKE_TIMEOUT else wakeTimeout,
        None, 0, 0, false, hasLifecycle, None, 0)
  }

  /** Every transition closes the broadcast channel and opens a new generation. */
  function SetState(c: Ctl, state: State): Ctl {
    if c.state == state then c
    else c.(state := state, generation := c.generation + 1, changed := c.changed + 1)
  }

  function StartWake(c: Ctl): Ctl {
    var woken := SetState(c, Waking);
    woken.(cancel := Some(woken.generation))
  }

  function Admit(c: Ctl, now: nat): (Ctl, Verdict) {
    match c.state
    case Active => (c.(inflight := c.inflight + 1, lastRequest := now), Admitted)
    case Sleeping =>
      if now < c.retryAfter then (c, Rejected(c.lastErr))
      else var woken := StartWake(c); (woken, Parked(woken.changed))
    case Stopping => (c, Parked(c.changed))
    case Waking => (c, Parked(c.changed))
  }

  function EndRequest(c: Ctl, now: nat): Ctl {
    c.(inflight := if c.inflight > 0 then c.inflight - 1 else 0, lastRequest := now)
  }

  function Doubled(k: nat): nat {
    if k == 0 then 1 else 2 * Doubled(k - 1)
  }

  function WakeBackoff(failures: nat): nat
    requires failures >= 1
  {
    var pause := Doubled(if failures - 1 < 5 then failures - 1 else 5);
    if pause < MAX_WAKE_BACKOFF then pause else MAX_WAKE_BACKOFF
  }

  /** The pause doubles from one second and settles at the cap. */
  lemma WakeBackoffLaw(failures: nat)
    requires failures >= 1
    ensures failures <= 5 ==> WakeBackoff(failures) == Doubled(failures - 1)
    ensures failures >= 6 ==> WakeBackoff(failures) == MAX_WAKE_BACKOFF
    ensures 1 <= WakeBackoff(failures) <= WakeBackoff(failures + 1) <= MAX_WAKE_BACKOFF
  {
    assert Doubled(1) == 2 && Doubled(2) == 4 && Doubled(3) == 8 && Doubled(4) == 16 && Doubled(5) == 32;
    assert failures == 1 || failures == 2 || failures == 3 || failures == 4 || failures == 5 || failures >= 6;
  }

  /** Only the wake of the current generation may write its outcome. */
  function FinishWake(c: Ctl, generation: nat, error: Option<string>, now: nat): Ctl {
    if c.generation != generation then c
    else
      var settled := c.(cancel := None);
      match error
      case None => SetState(settled.(lastErr := None, failures := 0, retryAfter := 0, lastRequest := now), Active)
      case Some(_) =>
        SetState(settled.(lastErr := error, failures := c.failures + 1, retryAfter := now + WakeBackoff(c.failures + 1)), Sleeping)
  }

  predicate MaySleep(c: Ctl, now: nat) {
    !c.disabled && c.state == Active && c.inflight == 0 && c.sleepAfter > 0 && c.hasLifecycle
    && |c.refs| > 0 && now - c.lastRequest >= c.sleepAfter
  }

  function BeginSleep(c: Ctl, now: nat): Ctl {
    if MaySleep(c, now) then SetState(c, Stopping) else c
  }

  function FinishStop(c: Ctl, generation: nat, stopFailed: bool, now: nat): Ctl {
    if c.generation != generation then c
    else if stopFailed then SetState(c.(lastRequest := now), Active)
    else SetState(c, Sleeping)
  }

  /** A redeploy: awake, pointed somewhere new, and in a generation no running operation belongs to. */
  function Redirect(c: Ctl, refs: seq<string>, now: nat): Ctl {
    var renewed := c.(refs := refs, lastRequest := now, lastErr := None, failures := 0, retryAfter := 0, cancel := None);
    if c.state == Active then renewed.(generation := c.generation + 1) else SetState(renewed, Active)
  }

  function Configure(c: Ctl, sleepAfter: int, wakeTimeout: int, refs: seq<string>, now: nat): Ctl {
    var tuned := c.(sleepAfter := sleepAfter, wakeTimeout := if wakeTimeout <= 0 then DEFAULT_WAKE_TIMEOUT else wakeTimeout);
    if refs == c.refs then tuned else Redirect(tuned, refs, now)
  }

  function RestoreSleeping(c: Ctl): Ctl {
    if c.state == Active then SetState(c, Sleeping) else c
  }

  function Enable(c: Ctl, now: nat): Ctl {
    c.(disabled := false, lastRequest := now)
  }

  // ---- The controller in place ----

  class Controller {
    var state: State
    var generation: nat
    var refs: seq<string>
    var inflight: nat
    var lastRequest: nat
    var sleepAfter: int
    var wakeTimeout: nat
    var lastErr: Option<string>
    var failures: nat
    var retryAfter: nat
    var disabled: bool
    const hasLifecycle: bool
    var cancel: Option<nat>
    var changed: nat

    ghost function View(): Ctl
      reads this
    {
      Ctl(state, generation, refs, inflight, lastRequest, sleepAfter, wakeTimeout, lastErr, failures, retryAfter,
          disabled, hasLifecycle, cancel, changed)
    }

    constructor (refs: seq<string>, sleepAfter: int, wakeTimeout: int, hasLifecycle: bool, now: nat)
      ensures View() == NewCtl(refs, sleepAfter, wakeTimeout, hasLifecycle, now)
    {
      this.state, this.generation, this.refs, this.inflight, this.lastRequest := Active, 0, refs, 0, now;
      this.sleepAfter := sleepAfter;
      this.wakeTimeout := if wakeTimeout <= 0 then DEFAULT_WAKE_TIMEOUT else wakeTimeout;
      this.lastErr, this.failures, this.retryAfter, this.disabled := None, 0, 0, false;
      this.hasLifecycle, this.cancel, this.changed := hasLifecycle, None, 0;
    }

    method SetStateLocked(next: State)
      modifies this`state, this`generation, this`changed
      ensures View() == SetState(old(View()), next)
    {
      if state == next {
        return;
      }
      state, generation, changed := next, generation + 1, changed + 1;
    }

    method StartWakeLocked()
      modifies this`state, this`generation, this`changed, this`cancel
      ensures View() == StartWake(old(View()))
    {
      SetStateLocked(Waking);
      cancel := Some(generation);
    }

    method AdmitRequest(now: nat) returns (verdict: Verdict)
      modifies this
      ensures (View(), verdict) == Admit(old(View()), now)
    {
      match state {
        case Active =>
          inflight, lastRequest := inflight + 1, now;
          return Admitted;
        case Sleeping =>
          if now < retryAfter {
            return Rejected(lastErr);
          }
          StartWakeLocked();
        case Stopping =>
        case Waking =>
      }
      return Parked(changed);
    }

    method End(now: nat)
      modifies this`inflight, this`lastRequest
      ensures View() == EndRequest(old(View()), now)
    {
      if inflight > 0 {
        inflight := inflight - 1;
      }
      lastRequest := now;
    }

    method WakeFinished(wake: nat, error: Option<string>, now: nat)
      modifies this
      ensures View() == FinishWake(old(View()), wake, error, now)
    {
      if generation != wake {
        return;
      }
      cancel := None;
      if error.None? {
        Woken(now);
      } else {
        NotWoken(error, now);
      }
    }

    method Woken(now: nat)
      modifies this
      ensures View() == SetState(old(View()).(lastErr := None, failures := 0, retryAfter := 0, lastRequest := now), Active)
    {
      lastErr, failures, retryAfter, lastRequest := None, 0, 0, now;
      SetStateLocked(Active);
    }

    method NotWoken(error: Option<string>, now: nat)
      modifies this
      ensures View() == SetState(old(View()).(lastErr := error, failures := old(failures) + 1,
                                              retryAfter := now + WakeBackoff(old(failures) + 1)), Sleeping)
    {
      lastErr, failures := error, failures + 1;
      retryAfter := now + WakeBackoff(failures);
      SetStateLocked(Sleeping);
    }

    /** The first half of an idle stop: decide, and hold every request that arrives from here on. */
    method TrySleep(now: nat) returns (stop: Option<nat>)
      modifies this`state, this`generation, this`changed
      ensures View() == BeginSleep(old(View()), now)
      ensures stop == if MaySleep(old(View()), now) then Some(generation) else None
    {
      if disabled || state != Active || inflight != 0 || sleepAfter <= 0 || !hasLifecycle || |refs| == 0
         || now - lastRequest < sleepAfter {
        return None;
      }
      SetStateLocked(Stopping);
      return Some(generation);
    }

    /** The second half, after the containers were told to stop; false when a deploy overtook it. */
    method StopFinished(stop: nat, stopFailed: bool, now: nat) returns (current: bool)
      modifies this
      ensures View() == FinishStop(old(View()), stop, stopFailed, now)
      ensures current <==> old(generation) == stop
    {
      current := generation == stop;
      if current {
        if !stopFailed {
          SetStateLocked(Sleeping);
        } else {
          lastRequest := now;
          SetStateLocked(Active);
        }
      }
    }

    /** Also returns the wake to cancel, if one was in progress. */
    method Reset(newRefs: seq<string>, now: nat) returns (cancelled: Option<nat>)
      modifies this
      ensures View() == Redirect(old(View()), newRefs, now) && cancelled == old(cancel)
    {
      cancelled := cancel;
      Point(newRefs, now);
      if state == Active {
        generation := generation + 1;
      } else {
        SetStateLocked(Active);
      }
    }

    /** Points the controller at other containers, with no failure behind it and no wake to cancel. */
    method Point(newRefs: seq<string>, now: nat)
      modifies this
      ensures View() == old(View()).(refs := newRefs, lastRequest := now, lastErr := None, failures := 0, retryAfter := 0, cancel := None)
    {
      refs, lastRequest := newRefs, now;
      lastErr, failures, retryAfter := None, 0, 0;
      cancel := None;
    }

    method Reconfigure(newSleepAfter: int, newWakeTimeout: int, newRefs: seq<string>, now: nat)
      modifies this
      ensures View() == Configure(old(View()), newSleepAfter, newWakeTimeout, newRefs, now)
    {
      var moved := refs != newRefs;
      sleepAfter := newSleepAfter;
      wakeTimeout := if newWakeTimeout <= 0 then DEFAULT_WAKE_TIMEOUT else newWakeTimeout;
      if moved {
        var _ := Reset(newRefs, now);
      }
    }
  }
}
