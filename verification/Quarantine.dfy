/**
 * Per-domain issuance holds with escalating backoff. Times are minutes since the
 * zero time; the zero time itself is 0 and is never after the clock.
 */
module Quarantine {
  import opened Text

  datatype Kind = Acme | Preflight | RateLimited

  /** One domain's failure history and the end of its current hold. */
  datatype Hold = Hold(until: nat, failures: nat, kind: Kind)

  type Holds = map<string, Hold>

  const ACME_LADDER: seq<nat> := [15, 60, 240, 1440]
  const PREFLIGHT_LADDER: seq<nat> := [5, 15, 60, 240, 1440]
  const RATE_LIMIT_MARGIN: nat := 1

  function Ladder(kind: Kind): seq<nat> {
    if kind == Preflight then PREFLIGHT_LADDER else ACME_LADDER
  }

  /** The backoff a domain's nth failure earns. */
  function Backoff(kind: Kind, failures: nat): (backoff: nat)
    requires failures > 0
    ensures backoff > 0
  {
    var ladder := Ladder(kind);
    ladder[(if failures < |ladder| then failures else |ladder|) - 1]
  }

  predicate Held(holds: Holds, domain: string, now: nat) {
    domain in holds && now < holds[domain].until
  }

  function Failures(holds: Holds, domain: string): nat {
    if domain in holds then holds[domain].failures else 0
  }

  function Recorded(holds: Holds, domain: string, kind: Kind, until: nat): Holds {
    holds[domain := Hold(until, Failures(holds, domain) + 1, kind)]
  }

  function RecordFailure(holds: Holds, domain: string, kind: Kind, now: nat): Holds {
    Recorded(holds, domain, kind, now + Backoff(kind, Failures(holds, domain) + 1))
  }

  /** `retryAfter` is None when the server advertised no time. */
  function RateLimitedUntil(holds: Holds, domain: string, retryAfter: Option<nat>, now: nat): nat {
    if retryAfter.None? || retryAfter.value + RATE_LIMIT_MARGIN <= now
    then now + Backoff(RateLimited, Failures(holds, domain) + 1)
    else retryAfter.value + RATE_LIMIT_MARGIN
  }

  function RecordRateLimited(holds: Holds, domain: string, retryAfter: Option<nat>, now: nat): Holds {
    Recorded(holds, domain, RateLimited, RateLimitedUntil(holds, domain, retryAfter, now))
  }

  function Release(holds: Holds, domain: string, now: nat): Holds {
    if Held(holds, domain, now) then holds[domain := holds[domain].(until := 0)] else holds
  }

  function Clear(holds: Holds, domain: string): Holds {
    holds - {domain}
  }

  /** The hold table the issuer, the renewer and the handshake path share. */
  class DomainQuarantine {
    var entries: Holds

    constructor ()
      ensures entries == map[]
    {
      entries := map[];
    }

    method RecordDomainFailure(domain: string, kind: Kind, now: nat) returns (backoff: nat)
      modifies this
      ensures entries == RecordFailure(old(entries), domain, kind, now)
      ensures backoff > 0 && entries[domain].until == now + backoff
      ensures Held(entries, domain, now)
    {
      var entry := if domain in entries then entries[domain] else Hold(0, 0, kind);
      entry := entry.(failures := entry.failures + 1, kind := kind);
      var ladder := if kind == Preflight then PREFLIGHT_LADDER else ACME_LADDER;
      var rung := if entry.failures < |ladder| then entry.failures else |ladder|;
      backoff := ladder[rung - 1];
      entries := entries[domain := entry.(until := now + backoff)];
    }

    method RecordDomainRateLimited(domain: string, retryAfter: Option<nat>, now: nat) returns (hold: nat)
      modifies this
      ensures entries == RecordRateLimited(old(entries), domain, retryAfter, now)
      ensures hold > 0 && entries[domain].until == now + hold
      ensures Held(entries, domain, now)
      ensures retryAfter.Some? ==> forall t :: now <= t <= retryAfter.value ==> Held(entries, domain, t)
    {
      var entry := if domain in entries then entries[domain] else Hold(0, 0, RateLimited);
      entry := entry.(failures := entry.failures + 1, kind := RateLimited);
      if retryAfter.None? || retryAfter.value + RATE_LIMIT_MARGIN <= now {
        var rung := if entry.failures < |ACME_LADDER| then entry.failures else |ACME_LADDER|;
        hold := ACME_LADDER[rung - 1];
        entries := entries[domain := entry.(until := now + hold)];
      } else {
        entries := entries[domain := entry.(until := retryAfter.value + RATE_LIMIT_MARGIN)];
        hold := retryAfter.value + RATE_LIMIT_MARGIN - now;
      }
    }

    method ReleaseDomain(domain: string, now: nat) returns (lifted: bool)
      modifies this
      ensures entries == Release(old(entries), domain, now)
      ensures lifted <==> Held(old(entries), domain, now)
      ensures !Held(entries, domain, now)
      ensures Failures(entries, domain) == Failures(old(entries), domain)
    {
      if domain !in entries || now >= entries[domain].until {
        return false;
      }
      entries := entries[domain := entries[domain].(until := 0)];
      return true;
    }

    method ClearDomain(domain: string)
      modifies this
      ensures entries == Clear(old(entries), domain)
      ensures Failures(entries, domain) == 0
    {
      entries := entries - {domain};
    }
  }

  // ---- The ladder over every history ----

  datatype Event = Fail(domain: string, kind: Kind, now: nat)
                 | Limit(domain: string, retryAfter: Option<nat>, now: nat)
                 | Lift(domain: string, now: nat)
                 | Forget(domain: string)

  function After(holds: Holds, e: Event): Holds {
    match e
    case Fail(d, kind, now) => RecordFailure(holds, d, kind, now)
    case Limit(d, retryAfter, now) => RecordRateLimited(holds, d, retryAfter, now)
    case Lift(d, now) => Release(holds, d, now)
    case Forget(d) => Clear(holds, d)
  }

  function Replay(events: seq<Event>): Holds {
    if events == [] then map[] else After(Replay(events[..|events| - 1]), events[|events| - 1])
  }

  /** Failures of a domain since it last succeeded or left its source. */
  function Strikes(events: seq<Event>, domain: string): nat {
    if events == [] then 0 else
      var before := Strikes(events[..|events| - 1], domain);
      match events[|events| - 1]
      case Fail(d, _, _) => if d == domain then before + 1 else before
      case Limit(d, _, _) => if d == domain then before + 1 else before
      case Lift(_, _) => before
      case Forget(d) => if d == domain then 0 else before
  }

  lemma {:induction false} FailuresAreStrikes(events: seq<Event>, domain: string)
    ensures Failures(Replay(events), domain) == Strikes(events, domain)
  {
    if events != [] {
      FailuresAreStrikes(events[..|events| - 1], domain);
    }
  }

  /** The rungs in minutes: a quarter of an hour to a day for an order, five minutes to a day for a probe. */
  lemma LadderValues(failures: nat)
    requires failures > 0
    ensures forall kind :: kind != Preflight ==>
              Backoff(kind, failures) == if failures == 1 then 15 else if failures == 2 then 60 else if failures == 3 then 240 else 1440
    ensures Backoff(Preflight, failures) ==
            if failures == 1 then 5 else if failures == 2 then 15 else if failures == 3 then 60 else if failures == 4 then 240 else 1440
  {
  }

  /** No rung of either ladder is above the next rung of the other. */
  lemma RungsRise(earlier: Kind, later: Kind, n: nat)
    requires n > 0
    ensures Backoff(later, n + 1) >= Backoff(earlier, n)
  {
  }

  /**
   * However often a hold was lifted in between, a domain's next failure is held
   * on the rung its unforgiven failures have earned, and for no shorter than the
   * rung before it, whatever kind of failure that was.
   */
  lemma LiftingNeverLowersTheLadder(events: seq<Event>, domain: string, earlier: Kind, kind: Kind, now: nat)
    ensures var n := Strikes(events, domain);
            var after := Replay(events + [Fail(domain, kind, now)]);
            && (forall t: nat :: Held(after, domain, t) <==> t < now + Backoff(kind, n + 1))
            && Failures(after, domain) == n + 1
            && (n > 0 ==> Backoff(kind, n + 1) >= Backoff(earlier, n))
  {
    var all := events + [Fail(domain, kind, now)];
    assert all[..|all| - 1] == events;
    FailuresAreStrikes(events, domain);
    if Strikes(events, domain) > 0 {
      RungsRise(earlier, kind, Strikes(events, domain));
    }
  }

  /**
   * A rate limit holds through the advertised time and a minute more, or, when none
   * was advertised or it is past, for the rung its failures have earned.
   */
  lemma LimitHolds(events: seq<Event>, domain: string, retryAfter: Option<nat>, now: nat)
    ensures var n := Strikes(events, domain);
            var after := Replay(events + [Limit(domain, retryAfter, now)]);
            forall t: nat :: Held(after, domain, t) <==>
              t < if retryAfter.Some? && retryAfter.value + 1 > now then retryAfter.value + 1 else now + Backoff(RateLimited, n + 1)
  {
    var all := events + [Limit(domain, retryAfter, now)];
    assert all[..|all| - 1] == events;
    FailuresAreStrikes(events, domain);
  }

  /** Lifting and forgetting end a hold from then on, and touch no other name's. */
  lemma LiftEndsHold(events: seq<Event>, domain: string, now: nat, other: string, t: nat)
    requires other != domain
    ensures t >= now ==> !Held(Replay(events + [Lift(domain, now)]), domain, t)
    ensures !Held(Replay(events + [Forget(domain)]), domain, t)
    ensures Held(Replay(events + [Lift(domain, now)]), other, t) == Held(Replay(events), other, t)
    ensures Held(Replay(events + [Forget(domain)]), other, t) == Held(Replay(events), other, t)
  {
    var lifted, forgotten := events + [Lift(domain, now)], events + [Forget(domain)];
    assert lifted[..|lifted| - 1] == events && forgotten[..|forgotten| - 1] == events;
  }
}
