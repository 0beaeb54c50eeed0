/**
 * The in-process single flight: one registered, unsettled call per key. Calls
 * are numbered in the order they were made, where the source compares addresses.
 */
module Inflight {
  import opened Text

  /** A call in flight, or its outcome: an entry for the followers, or none. */
  datatype Call<K, E> = Call(key: K, settled: bool, entry: Option<E>)

  datatype Flights<K, E> = Flights(registered: map<K, nat>, calls: seq<Call<K, E>>)

  function NoFlights<K, E>(): Flights<K, E> {
    Flights(map[], [])
  }

  /** Registered and unsettled are the same thing, so each key has at most one unsettled call. */
  ghost predicate Valid<K, E>(f: Flights<K, E>) {
    && (forall k :: k in f.registered ==>
          f.registered[k] < |f.calls| && f.calls[f.registered[k]].key == k && !f.calls[f.registered[k]].settled)
    && (forall i :: 0 <= i < |f.calls| && !f.calls[i].settled ==>
          f.calls[i].key in f.registered && f.registered[f.calls[i].key] == i)
    && (forall i :: 0 <= i < |f.calls| && !f.calls[i].settled ==> f.calls[i].entry.None?)
  }

  /** The call in flight for a key, and whether the caller is the one to complete it. */
  function Join<K(==), E>(f: Flights<K, E>, key: K): (Flights<K, E>, nat, bool) {
    if key in f.registered then (f, f.registered[key], false)
    else (Flights(f.registered[key := |f.calls|], f.calls + [Call(key, false, None)]), |f.calls|, true)
  }

  /** Settles a call once; later attempts change nothing. */
  function Settle<K(==), E>(f: Flights<K, E>, call: nat, entry: Option<E>): Flights<K, E>
    requires call < |f.calls|
  {
    if f.calls[call].settled then f else
      var key := f.calls[call].key;
      Flights(if key in f.registered && f.registered[key] == call then f.registered - {key} else f.registered,
              f.calls[call := Call(key, true, entry)])
  }

  lemma JoinValid<K, E>(f: Flights<K, E>, key: K)
    requires Valid(f)
    ensures var (f', call, leader) := Join(f, key);
            && Valid(f') && call < |f'.calls| && f'.calls[call] == Call(key, false, None)
            && (leader <==> key !in f.registered)
            && |f.calls| <= |f'.calls| && (forall i :: 0 <= i < |f.calls| ==> f'.calls[i] == f.calls[i])
            && (leader ==> call == |f.calls|) && (!leader ==> f' == f)
  {
  }

  /** A settled call keeps its outcome for good, and settling removes no registration but its own. */
  lemma SettleValid<K, E>(f: Flights<K, E>, call: nat, entry: Option<E>)
    requires Valid(f) && call < |f.calls|
    ensures var f' := Settle(f, call, entry);
            && Valid(f') && |f'.calls| == |f.calls| && f'.calls[call].settled
            && (forall i :: 0 <= i < |f.calls| && (i != call || f.calls[i].settled) ==> f'.calls[i] == f.calls[i])
            && (!f.calls[call].settled ==> f'.calls[call] == Call(f.calls[call].key, true, entry))
            && (forall k :: k in f.registered && f.registered[k] != call ==>
                  k in f'.registered && f'.registered[k] == f.registered[k])
  {
    var f' := Settle(f, call, entry);
    if !f.calls[call].settled {
      forall i | 0 <= i < |f'.calls| && !f'.calls[i].settled
        ensures f'.calls[i].key in f'.registered && f'.registered[f'.calls[i].key] == i
      {
        assert f.calls[i] == f'.calls[i];
      }
      forall k | k in f'.registered
        ensures f'.registered[k] < |f'.calls| && f'.calls[f'.registered[k]].key == k && !f'.calls[f'.registered[k]].settled
      {
        assert f.registered[k] != call;
      }
    }
  }

  // ---- Whole runs ----

  datatype Op<K, E> = DoJoin(key: K) | DoSettle(call: nat, entry: Option<E>)

  function Apply<K(==), E>(f: Flights<K, E>, op: Op<K, E>): Flights<K, E> {
    match op
    case DoJoin(key) => Join(f, key).0
    case DoSettle(call, entry) => if call < |f.calls| then Settle(f, call, entry) else f
  }

  function Run<K(==), E>(ops: seq<Op<K, E>>): Flights<K, E> {
    if ops == [] then NoFlights() else Apply(Run(ops[..|ops| - 1]), ops[|ops| - 1])
  }

  /** Over every interleaving of join and settle, each key has at most one registered unsettled call. */
  lemma {:induction false} SingleFlight<K, E>(ops: seq<Op<K, E>>)
    ensures Valid(Run(ops))
  {
    if ops != [] {
      SingleFlight(ops[..|ops| - 1]);
      var f := Run(ops[..|ops| - 1]);
      match ops[|ops| - 1]
      case DoJoin(key) => JoinValid(f, key);
      case DoSettle(call, entry) => if call < |f.calls| { SettleValid(f, call, entry); }
    }
  }

  /** Once settled, a call's outcome survives every later operation. */
  lemma {:induction false} SettledForever<K, E>(ops: seq<Op<K, E>>, more: seq<Op<K, E>>, call: nat)
    requires call < |Run(ops).calls| && Run(ops).calls[call].settled
    ensures call < |Run(ops + more).calls| && Run(ops + more).calls[call] == Run(ops).calls[call]
    decreases |more|
  {
    if more == [] {
      assert ops + more == ops;
    } else {
      var before := more[..|more| - 1];
      SettledForever(ops, before, call);
      assert (ops + more)[..|ops + more| - 1] == ops + before;
      SingleFlight(ops + before);
      var f := Run(ops + before);
      match more[|more| - 1]
      case DoJoin(key) => JoinValid(f, key);
      case DoSettle(c, entry) => if c < |f.calls| { SettleValid(f, c, entry); }
    }
  }

  /** One node's group of calls. */
  class InflightGroup<K(==), E> {
    var registered: map<K, nat>
    var calls: seq<Call<K, E>>

    ghost function View(): Flights<K, E>
      reads this
    {
      Flights(registered, calls)
    }

    constructor ()
      ensures Valid(View()) && View() == NoFlights()
    {
      registered, calls := map[], [];
    }

    method JoinCall(key: K) returns (call: nat, leader: bool)
      requires Valid(View())
      modifies this
      ensures Valid(View())
      ensures (View(), call, leader) == Join(old(View()), key)
      ensures call < |calls| && calls[call].key == key && !calls[call].settled
    {
      if key in registered {
        return registered[key], false;
      }
      JoinValid(View(), key);
      call, leader := |calls|, true;
      calls := calls + [Call(key, false, None)];
      registered := registered[key := call];
    }

    method SettleCall(call: nat, entry: Option<E>)
      requires Valid(View()) && call < |calls|
      modifies this
      ensures Valid(View())
      ensures View() == Settle(old(View()), call, entry)
      ensures old(calls[call].settled) ==> View() == old(View())
    {
      SettleValid(View(), call, entry);
      if !calls[call].settled {
        var key := calls[call].key;
        calls := calls[call := Call(key, true, entry)];
        if key in registered && registered[key] == call {
          registered := registered - {key};
        }
      }
    }
  }
}
