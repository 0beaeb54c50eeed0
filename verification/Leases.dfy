/**
 * The cross-node lease: SET NX with a token and an expiry to claim, and a
 * compare-and-delete script to release. Each Redis command is one atomic step.
 */
module Leases {
  import opened Text

  datatype Outcome = Acquired | Taken | Unavailable | Deferred

  /** One acquisition attempt; key and token are empty unless it was acquired. */
  datatype Lease = Lease(outcome: Outcome, key: string, token: string)

  predicate IsTaken(l: Lease) { l.outcome.Taken? }

  predicate Mine(l: Lease) {
    l.outcome.Acquired? && l.key != "" && l.token != ""
  }

  /** What Redis holds: each claimed key with its claimant's token. */
  type Table = map<string, string>

  function Claim(t: Table, key: string, token: string): (Table, Lease) {
    if key in t then (t, Lease(Taken, key, "")) else (t[key := token], Lease(Acquired, key, token))
  }

  /** The release script: delete only what still carries this token. */
  function Release(t: Table, l: Lease): Table {
    if Mine(l) && l.key in t && t[l.key] == l.token then t - {l.key} else t
  }

  function Expire(t: Table, key: string): Table {
    t - {key}
  }

  // ---- Whole runs of a fleet ----

  /** Steps any proxy, or Redis itself, may take. A claim names the proxy making it and its fresh token. */
  datatype Op = DoClaim(proxy: nat, key: string, token: string) | DoRelease(claim: nat) | DoExpire(key: string)

  /** One successful claim of a run: who made it, and the lease they were given. */
  datatype Held = Held(proxy: nat, lease: Lease)

  /** The table plus every claim ever granted, in order. */
  datatype Fleet = Fleet(table: Table, claims: seq<Held>)

  /** Tokens are sixteen random bytes: a run reuses none. */
  predicate FreshToken(f: Fleet, token: string) {
    token != "" && forall i :: 0 <= i < |f.claims| ==> f.claims[i].lease.token != token
  }

  predicate Enabled(f: Fleet, op: Op) {
    match op
    case DoClaim(_, key, token) => key != "" && FreshToken(f, token)
    case DoRelease(claim) => claim < |f.claims|
    case DoExpire(_) => true
  }

  function Apply(f: Fleet, op: Op): Fleet
    requires Enabled(f, op)
  {
    match op
    case DoClaim(proxy, key, token) =>
      var (table, lease) := Claim(f.table, key, token);
      Fleet(table, if lease.outcome.Acquired? then f.claims + [Held(proxy, lease)] else f.claims)
    case DoRelease(claim) => f.(table := Release(f.table, f.claims[claim].lease))
    case DoExpire(key) => f.(table := Expire(f.table, key))
  }

  ghost predicate Reaches(f: Fleet, ops: seq<Op>, g: Fleet)
    decreases |ops|
  {
    if ops == [] then f == g
    else Enabled(f, ops[0]) && Reaches(Apply(f, ops[0]), ops[1..], g)
  }

  /** Every live entry is exactly one granted claim's. */
  ghost predicate Sound(f: Fleet) {
    && (forall i :: 0 <= i < |f.claims| ==> Mine(f.claims[i].lease))
    && (forall i, j :: 0 <= i < j < |f.claims| ==> f.claims[i].lease.token != f.claims[j].lease.token)
    && (forall key :: key in f.table ==>
          exists i :: 0 <= i < |f.claims| && f.claims[i].lease.key == key && f.claims[i].lease.token == f.table[key])
  }

  /** A claim is live while Redis still holds its token. */
  predicate Live(f: Fleet, claim: nat)
    requires claim < |f.claims|
  {
    var l := f.claims[claim].lease;
    l.key in f.table && f.table[l.key] == l.token
  }

  lemma StepSound(f: Fleet, op: Op)
    requires Sound(f) && Enabled(f, op)
    ensures Sound(Apply(f, op))
  {
    var g := Apply(f, op);
    forall key | key in g.table
      ensures exists i :: 0 <= i < |g.claims| && g.claims[i].lease.key == key && g.claims[i].lease.token == g.table[key]
    {
      if key in f.table && f.table[key] == g.table[key] {
        var i :| 0 <= i < |f.claims| && f.claims[i].lease.key == key && f.claims[i].lease.token == f.table[key];
        assert g.claims[i] == f.claims[i];
      } else {
        assert g.claims[|f.claims|].lease.token == g.table[key];
      }
    }
  }

  /** Releasing a claim takes away no other claim, live or lapsed, on any key. */
  lemma ReleaseTouchesOnlyItself(f: Fleet, claim: nat, other: nat)
    requires Sound(f) && claim < |f.claims| && other < |f.claims| && claim != other && Live(f, other)
    ensures Live(Apply(f, DoRelease(claim)), other)
  {
    if claim < other {
      assert f.claims[claim].lease.token != f.claims[other].lease.token;
    }
  }

  /** While any claim on a key is live, nobody else's attempt succeeds. */
  lemma LiveClaimExcludes(f: Fleet, claim: nat, proxy: nat, token: string)
    requires Sound(f) && claim < |f.claims| && Live(f, claim) && FreshToken(f, token)
    ensures var key := f.claims[claim].lease.key;
            IsTaken(Claim(f.table, key, token).1) && Apply(f, DoClaim(proxy, key, token)) == f
  {
    assert Mine(f.claims[claim].lease);
  }

  /**
   * Over every order of claim, expiry and release: at most one claim per key is
   * live, and a claim that stops being live was released by its own holder or
   * expired -- never removed by another.
   */
  lemma {:induction false} LeaseSafety(f: Fleet, ops: seq<Op>, g: Fleet)
    requires Sound(f) && Reaches(f, ops, g)
    ensures Sound(g)
    ensures forall i, j :: 0 <= i < j < |g.claims| && Live(g, i) && Live(g, j) ==>
              g.claims[i].lease.key != g.claims[j].lease.key
    ensures |f.claims| <= |g.claims| && forall i :: 0 <= i < |f.claims| ==> g.claims[i] == f.claims[i]
    decreases |ops|
  {
    if ops != [] {
      StepSound(f, ops[0]);
      LeaseSafety(Apply(f, ops[0]), ops[1..], g);
    }
  }

  /** The operations that may end a claim: its own release, or the expiry of its key. */
  predicate Ends(f: Fleet, op: Op, claim: nat)
    requires claim < |f.claims|
  {
    op == DoRelease(claim) || op == DoExpire(f.claims[claim].lease.key)
  }

  lemma LiveStep(f: Fleet, op: Op, claim: nat)
    requires Sound(f) && Enabled(f, op) && claim < |f.claims| && Live(f, claim) && !Ends(f, op, claim)
    ensures var g := Apply(f, op);
            claim < |g.claims| && g.claims[claim] == f.claims[claim] && Live(g, claim)
  {
    if op.DoRelease? {
      ReleaseTouchesOnlyItself(f, op.claim, claim);
    }
  }

  /** A claim outlives everything but its own release and its expiry. */
  lemma {:induction false} LiveUntilReleasedOrExpired(f: Fleet, ops: seq<Op>, g: Fleet, claim: nat)
    requires Sound(f) && Reaches(f, ops, g) && claim < |f.claims| && Live(f, claim)
    requires forall i :: 0 <= i < |ops| ==> !Ends(f, ops[i], claim)
    ensures claim < |g.claims| && Live(g, claim)
    decreases |ops|
  {
    if ops != [] {
      StepSound(f, ops[0]);
      LiveStep(f, ops[0], claim);
      LiveUntilReleasedOrExpired(Apply(f, ops[0]), ops[1..], g, claim);
    }
  }

  /** What Redis answered to SET NX, or that it did not. */
  datatype Reply = Replied | Failed

  /** The shared lease keys, as one proxy's calls change them. */
  class LeaseStore {
    var table: Table

    constructor ()
      ensures table == map[]
    {
      table := map[];
    }

    /** Only a claim Redis refused means back off; a store that cannot answer, or is not asked, grants. */
    method AcquireLease(key: string, ttl: int, breakerOpen: bool, token: Option<string>, reply: Reply) returns (l: Lease)
      modifies this
      ensures IsTaken(l) <==> ttl > 0 && !breakerOpen && token.Some? && reply.Replied? && key in old(table)
      ensures l.outcome.Acquired? <==> ttl > 0 && !breakerOpen && token.Some? && reply.Replied? && key !in old(table)
      ensures l.outcome.Acquired? ==> l == Lease(Acquired, key, token.value) && table == old(table)[key := token.value]
      ensures !l.outcome.Acquired? ==> table == old(table) && !Mine(l)
    {
      if ttl <= 0 {
        return Lease(Unavailable, "", "");
      }
      if breakerOpen {
        return Lease(Deferred, "", "");
      }
      if token.None? || reply.Failed? {
        return Lease(Unavailable, "", "");
      }
      var (next, lease) := Claim(table, key, token.value);
      table, l := next, lease;
    }

    method ReleaseLease(l: Lease)
      modifies this
      ensures table == Release(old(table), l)
      ensures forall k :: k in old(table) && (k != l.key || old(table)[k] != l.token) ==> k in table && table[k] == old(table)[k]
    {
      if !Mine(l) {
        return;
      }
      if l.key in table && table[l.key] == l.token {
        table := table - {l.key};
      }
    }
  }
}
