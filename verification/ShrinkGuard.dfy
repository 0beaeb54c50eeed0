/**
 * Applying a service's polled domain set, with mass removals held back until
 * three consecutive polls agree on them. The 30 percent threshold is compared
 * exactly, as ten removals against three of the applied set.
 */
module ShrinkGuard {

  const CONFIRMATIONS: nat := 3

  function Missing(from: seq<string>, others: seq<string>): (r: seq<string>)
    ensures forall d :: d in r <==> d in from && d !in others
  {
    if from == [] then [] else
      assert from == from[..|from| - 1] + [from[|from| - 1]];
      var before := Missing(from[..|from| - 1], others);
      if from[|from| - 1] in others then before else before + [from[|from| - 1]]
  }

  /** More than 30 percent of the applied set would go. */
  predicate OverThreshold(applied: seq<string>, removed: seq<string>) {
    10 * |removed| > 3 * |applied|
  }

  /** One service's applied set, and how many polls in a row asked for a mass removal. */
  datatype Guard = Guard(applied: seq<string>, polls: nat)

  predicate Over(g: Guard, polled: seq<string>) {
    OverThreshold(g.applied, Missing(g.applied, polled))
  }

  predicate Held(g: Guard, polled: seq<string>) {
    Over(g, polled) && g.polls + 1 < CONFIRMATIONS
  }

  function Applied(g: Guard, polled: seq<string>): Guard {
    if Held(g, polled) then Guard(g.applied + Missing(polled, g.applied), g.polls + 1) else Guard(polled, 0)
  }

  // ---- The manager's maps ----

  class DomainManager {
    var states: map<string, seq<string>>
    var holds: map<string, nat>
    var sources: set<string>

    function GuardOf(service: string): Guard
      reads this
    {
      Guard(if service in states then states[service] else [], if service in holds then holds[service] else 0)
    }

    constructor ()
      ensures states == map[] && holds == map[] && sources == {}
    {
      states, holds, sources := map[], map[], {};
    }

    /** `known` says whether the service is still deployed. */
    method ApplyDomains(service: string, polled: seq<string>, known: bool) returns (held: bool, cleared: seq<string>)
      modifies this`states, this`holds
      ensures !known || service !in sources ==> states == old(states) && holds == old(holds) && !held && cleared == []
      ensures known && service in sources ==>
                && GuardOf(service) == Applied(old(GuardOf(service)), polled)
                && held == Held(old(GuardOf(service)), polled)
                && cleared == (if held then [] else Missing(old(GuardOf(service)).applied, polled))
                && service in states && states[service] == GuardOf(service).applied
                && (service in holds <==> held) && (held ==> holds[service] == GuardOf(service).polls)
                && states == old(states)[service := states[service]]
                && (forall other :: other != service ==> (other in holds <==> other in old(holds)) && (other in holds ==> holds[other] == old(holds)[other]))
    {
      held, cleared := false, [];
      if !known || service !in sources {
        return;
      }
      var previous := if service in states then states[service] else [];
      var added, removed := DiffDomains(previous, polled);
      held := EvaluateShrinkHold(service, previous, removed);
      var applying := polled;
      if held {
        applying := previous + added;
      } else {
        cleared := removed;
      }
      states := states[service := applying];
    }

    method EvaluateShrinkHold(service: string, previous: seq<string>, removed: seq<string>) returns (held: bool)
      modifies this`holds
      ensures var before := if service in old(holds) then old(holds)[service] else 0;
              && held == (OverThreshold(previous, removed) && before + 1 < CONFIRMATIONS)
              && holds == if held then old(holds)[service := before + 1] else old(holds) - {service}
    {
      if 10 * |removed| <= 3 * |previous| {
        holds := holds - {service};
        return false;
      }
      var polls := (if service in holds then holds[service] else 0) + 1;
      holds := holds[service := polls];
      if polls >= CONFIRMATIONS {
        holds := holds - {service};
        return false;
      }
      return true;
    }
  }

  method DiffDomains(previous: seq<string>, current: seq<string>) returns (added: seq<string>, removed: seq<string>)
    ensures added == Missing(current, previous) && removed == Missing(previous, current)
  {
    var prevSet, currentSet := {}, {};
    for i := 0 to |previous|
      invariant forall d :: d in prevSet <==> d in previous[..i]
    {
      assert previous[..i + 1] == previous[..i] + [previous[i]];
      prevSet := prevSet + {previous[i]};
    }
    for i := 0 to |current|
      invariant forall d :: d in currentSet <==> d in current[..i]
    {
      assert current[..i + 1] == current[..i] + [current[i]];
      currentSet := currentSet + {current[i]};
    }
    assert previous[..|previous|] == previous && current[..|current|] == current;
    added, removed := [], [];
    for i := 0 to |current|
      invariant added == Missing(current[..i], previous)
    {
      assert current[..i + 1][..i] == current[..i];
      if current[i] !in prevSet {
        added := added + [current[i]];
      }
    }
    for i := 0 to |previous|
      invariant removed == Missing(previous[..i], current)
    {
      assert previous[..i + 1][..i] == previous[..i];
      if previous[i] !in currentSet {
        removed := removed + [previous[i]];
      }
    }
  }

  // ---- Every sequence of polls ----

  ghost predicate IsRun(run: seq<Guard>, polls: seq<seq<string>>) {
    && |run| == |polls| + 1 && run[0].polls == 0
    && forall i :: 0 <= i < |polls| ==> run[i + 1] == Applied(run[i], polls[i])
  }

  /** Which polls asked for more than 30 percent of the applied set to go. */
  function Overs(run: seq<Guard>, polls: seq<seq<string>>): seq<bool>
    requires |run| == |polls| + 1
  {
    seq(|polls|, i requires 0 <= i < |polls| => 10 * |Missing(run[i].applied, polls[i])| > 3 * |run[i].applied|)
  }

  /** How many of them in a row, up to and including this one. */
  function Streak(overs: seq<bool>, at: nat): nat
    requires at < |overs|
  {
    if !overs[at] then 0 else if at == 0 then 1 else Streak(overs, at - 1) + 1
  }

  /** The count a guard carries next. */
  function Next(count: nat, over: bool): nat {
    if !over || count + 1 >= CONFIRMATIONS then 0 else count + 1
  }

  /** A streak counted in threes. */
  function Wrapped(streak: nat): nat {
    if streak < CONFIRMATIONS then streak else Wrapped(streak - CONFIRMATIONS)
  }

  lemma {:induction false} WrappedNext(streak: nat)
    ensures Wrapped(streak) < CONFIRMATIONS && Wrapped(streak + 1) == Next(Wrapped(streak), true)
  {
    if streak >= CONFIRMATIONS {
      WrappedNext(streak - CONFIRMATIONS);
    }
  }

  lemma {:induction false} WrappedIs(streak: nat)
    ensures Wrapped(streak) == streak % 3
  {
    if streak >= CONFIRMATIONS {
      WrappedIs(streak - CONFIRMATIONS);
    }
  }

  lemma StreakStep(overs: seq<bool>, at: nat)
    requires at < |overs|
    ensures Wrapped(Streak(overs, at)) == Next(if at == 0 then 0 else Wrapped(Streak(overs, at - 1)), overs[at])
  {
    if at > 0 {
      WrappedNext(Streak(overs, at - 1));
    }
  }

  /** The count a guard carries is its streak so far, counted in threes. */
  lemma {:induction false} CountIsStreak(counts: seq<nat>, overs: seq<bool>, at: nat)
    requires |counts| == |overs| + 1 && counts[0] == 0 && at < |overs|
    requires forall i :: 0 <= i < |overs| ==> counts[i + 1] == Next(counts[i], overs[i])
    ensures counts[at + 1] == Wrapped(Streak(overs, at))
  {
    if at > 0 {
      CountIsStreak(counts, overs, at - 1);
    }
    StreakStep(overs, at);
  }

  lemma AppliedCount(g: Guard, polled: seq<string>)
    ensures Applied(g, polled).polls == Next(g.polls, Over(g, polled))
    ensures Held(g, polled) <==> Applied(g, polled).polls != 0
  {
  }

  /** A poll is held exactly when it asks for a mass removal and is not the third, sixth, ... in a row to do so. */
  lemma HeldIffUnconfirmed(run: seq<Guard>, polls: seq<seq<string>>, at: nat)
    requires IsRun(run, polls) && at < |polls|
    ensures Held(run[at], polls[at]) <==> Streak(Overs(run, polls), at) % 3 != 0
  {
    WrappedIs(Streak(Overs(run, polls), at));
    var counts := seq(|run|, i requires 0 <= i < |run| => run[i].polls);
    var overs := Overs(run, polls);
    forall i | 0 <= i < |overs| ensures counts[i + 1] == Next(counts[i], overs[i]) {
      AppliedCount(run[i], polls[i]);
    }
    CountIsStreak(counts, overs, at);
    AppliedCount(run[at], polls[at]);
  }

  lemma StreakOfThree(overs: seq<bool>, at: nat)
    requires at < |overs| && overs[at] && Wrapped(Streak(overs, at)) == 0
    ensures at >= 2 && overs[at - 1] && overs[at - 2]
    ensures Wrapped(Streak(overs, at - 1)) != 0 && Wrapped(Streak(overs, at - 2)) != 0
  {
    StreakStep(overs, at);
    assert at > 0;
    WrappedNext(Streak(overs, at - 1));
    StreakStep(overs, at - 1);
    assert at > 1 && Wrapped(Streak(overs, at - 2)) == 1;
    StreakStep(overs, at - 2);
  }

  /** A mass removal takes effect only when this poll and the two before it all asked for one, and those two were held. */
  lemma MassRemovalConfirmed(run: seq<Guard>, polls: seq<seq<string>>, at: nat)
    requires IsRun(run, polls) && at < |polls|
    requires 10 * |Missing(run[at].applied, run[at + 1].applied)| > 3 * |run[at].applied|
    ensures at >= 2
    ensures forall i :: at - 2 <= i <= at ==> 10 * |Missing(run[i].applied, polls[i])| > 3 * |run[i].applied|
    ensures Held(run[at - 1], polls[at - 1]) && Held(run[at - 2], polls[at - 2])
    ensures run[at + 1].applied == polls[at]
  {
    var overs := Overs(run, polls);
    AppliedInFull(run[at], polls[at]);
    assert overs[at] == Over(run[at], polls[at]);
    HeldIffUnconfirmed(run, polls, at);
    WrappedIs(Streak(overs, at));
    StreakOfThree(overs, at);
    assert overs[at - 1] == Over(run[at - 1], polls[at - 1]) && overs[at - 2] == Over(run[at - 2], polls[at - 2]);
    HeldIffUnconfirmed(run, polls, at - 1);
    HeldIffUnconfirmed(run, polls, at - 2);
    WrappedIs(Streak(overs, at - 1));
    WrappedIs(Streak(overs, at - 2));
  }

  /** Names go only when a poll is applied as it stands. */
  lemma AppliedInFull(g: Guard, polled: seq<string>)
    requires OverThreshold(g.applied, Missing(g.applied, Applied(g, polled).applied))
    ensures !Held(g, polled) && Applied(g, polled).applied == polled && Over(g, polled)
  {
    if Held(g, polled) {
      NothingMissing(g.applied, Applied(g, polled).applied);
    }
  }

  lemma {:induction false} NothingMissing(from: seq<string>, others: seq<string>)
    requires forall d :: d in from ==> d in others
    ensures Missing(from, others) == []
  {
    if from != [] {
      var front := from[..|from| - 1];
      assert from == front + [from[|from| - 1]];
      assert forall d :: d in front ==> d in from;
      NothingMissing(front, others);
    }
  }

  /** A held poll removes no name and still adds every new one. */
  lemma HeldPollOnlyAdds(g: Guard, polled: seq<string>)
    requires Held(g, polled)
    ensures forall d :: d in Applied(g, polled).applied <==> d in g.applied || d in polled
  {
  }
}
