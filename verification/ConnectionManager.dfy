/** The shared, capacity-limited registry of peers
    (node/connection/src/connection_manager.rs). */
module ConnectionManagement {
  import opened Wrappers
  import opened Protocol

  datatype Metadata = Metadata(createdAt: int)

  type Registry = map<SocketAddr, Metadata>

  const LIMIT_REACHED := "Connection limit reached"

  /** One critical section of the registry's mutex. */
  datatype Call =
    | Insert(addr: SocketAddr, metadata: Metadata)
    | Remove(addr: SocketAddr)
    | Get(addr: SocketAddr)
    | NumConnections

  function Lookup(m: Registry, addr: SocketAddr): Option<Metadata> {
    if addr in m then Some(m[addr]) else None
  }

  /** The registry after a call. An insert at capacity is refused, whatever the address. */
  function Apply(capacity: nat, m: Registry, call: Call): Registry {
    match call
    case Insert(addr, s) => if |m| >= capacity then m else m[addr := s]
    case Remove(addr) => m - {addr}
    case _ => m
  }

  /** The registry after the calls of `history`, in the order they took the lock. */
  function Replay(capacity: nat, history: seq<Call>): Registry {
    if history == [] then map[]
    else Apply(capacity, Replay(capacity, history[..|history| - 1]), history[|history| - 1])
  }

  lemma ReplayAppend(capacity: nat, history: seq<Call>, call: Call)
    ensures Replay(capacity, history + [call]) == Apply(capacity, Replay(capacity, history), call)
  {
    assert (history + [call])[..|history|] == history;
  }

  /** Call `i` of `history` is an insert that returned `Ok`. */
  ghost predicate Accepted(capacity: nat, history: seq<Call>, i: nat)
    requires i < |history|
  {
    history[i].Insert? && |Replay(capacity, history[..i])| < capacity
  }

  /** Call `i` is the accepted insert that decides `addr`: no later accepted insert and no
      later removal of the same address. */
  ghost predicate Decides(capacity: nat, history: seq<Call>, i: nat, addr: SocketAddr)
    requires i < |history|
  {
    && Accepted(capacity, history, i) && history[i].addr == addr
    && forall j :: i < j < |history| ==>
         && !(Accepted(capacity, history, j) && history[j].addr == addr)
         && history[j] != Remove(addr)
  }

  ghost predicate Decided(capacity: nat, history: seq<Call>, addr: SocketAddr, s: Metadata) {
    exists i :: 0 <= i < |history| && Decides(capacity, history, i, addr) && history[i].metadata == s
  }

  lemma DecidedAppend(capacity: nat, history: seq<Call>, call: Call, addr: SocketAddr, s: Metadata)
    ensures var accepted := call.Insert? && |Replay(capacity, history)| < capacity;
            Decided(capacity, history + [call], addr, s) <==>
            if accepted && call.addr == addr then call.metadata == s
            else call != Remove(addr) && Decided(capacity, history, addr, s)
  {
    var n, next := |history|, history + [call];
    var accepted := call.Insert? && |Replay(capacity, history)| < capacity;
    assert forall i :: 0 <= i <= n ==> next[..i] == history[..i];
    assert history[..n] == history;
    assert Accepted(capacity, next, n) <==> accepted;
    assert forall i :: 0 <= i < n ==> Accepted(capacity, next, i) == Accepted(capacity, history, i);
    if accepted && call.addr == addr {
      assert Decides(capacity, next, n, addr);
    } else if call != Remove(addr) {
      assert forall i :: 0 <= i < n ==>
        Decides(capacity, next, i, addr) == Decides(capacity, history, i, addr);
    }
  }

  /** What the registry holds after any history: an address is registered with metadata `s`
      if and only if some accepted insert put it there and nothing has displaced it since. */
  lemma {:induction false} RegisteredIff(capacity: nat, history: seq<Call>, addr: SocketAddr, s: Metadata)
    ensures Lookup(Replay(capacity, history), addr) == Some(s) <==> Decided(capacity, history, addr, s)
  {
    if history != [] {
      var h0, call := history[..|history| - 1], history[|history| - 1];
      assert history == h0 + [call];
      RegisteredIff(capacity, h0, addr, s);
      DecidedAppend(capacity, h0, call, addr, s);
    }
  }

  /** Inserts that returned `Ok(None)`: accepted, on an address not yet present. */
  function FreshInserts(capacity: nat, history: seq<Call>): nat {
    if history == [] then 0
    else
      var h0, call := history[..|history| - 1], history[|history| - 1];
      var m := Replay(capacity, h0);
      FreshInserts(capacity, h0)
      + (if call.Insert? && |m| < capacity && call.addr !in m then 1 else 0)
  }

  /** Removals that returned `Some`. */
  function EffectiveRemoves(capacity: nat, history: seq<Call>): nat {
    if history == [] then 0
    else
      var h0, call := history[..|history| - 1], history[|history| - 1];
      EffectiveRemoves(capacity, h0)
      + (if call.Remove? && call.addr in Replay(capacity, h0) then 1 else 0)
  }

  lemma ApplySize(capacity: nat, m: Registry, call: Call)
    requires |m| <= capacity
    ensures |Apply(capacity, m, call)| <= capacity
    ensures |Apply(capacity, m, call)| ==
            |m| + (if call.Insert? && |m| < capacity && call.addr !in m then 1 else 0)
            - (if call.Remove? && call.addr in m then 1 else 0)
  {
    if call.Remove? {
      assert (m - {call.addr}).Keys == m.Keys - {call.addr};
    } else if call.Insert? && |m| < capacity {
      assert m[call.addr := call.metadata].Keys == m.Keys + {call.addr};
    }
  }

  /** The size is the fresh inserts less the effective removals, and never above capacity. */
  lemma {:induction false} SizeBalance(capacity: nat, history: seq<Call>)
    ensures |Replay(capacity, history)| + EffectiveRemoves(capacity, history)
            == FreshInserts(capacity, history)
    ensures |Replay(capacity, history)| <= capacity
  {
    if history != [] {
      var h0, call := history[..|history| - 1], history[|history| - 1];
      SizeBalance(capacity, h0);
      ApplySize(capacity, Replay(capacity, h0), call);
    }
  }

  class ConnectionManager {
    const capacity: nat
    var sharedState: Registry
    ghost var history: seq<Call>

    ghost predicate Valid()
      reads this
    {
      sharedState == Replay(capacity, history)
    }

    constructor (capacity: nat)
      ensures Valid() && this.capacity == capacity
      ensures sharedState == map[] && history == []
    {
      this.capacity := capacity;
      sharedState, history := map[], [];
    }

    method Insert(addr: SocketAddr, s: Metadata) returns (result: Result<Option<Metadata>, string>)
      requires Valid()
      modifies this
      ensures Valid() && history == old(history) + [Call.Insert(addr, s)]
      ensures result.Err? <==> |old(sharedState)| >= capacity
      ensures result.Err? ==> result.error == "Connection limit reached" && sharedState == old(sharedState)
      ensures result.Ok? ==> result.value == Lookup(old(sharedState), addr)
      ensures result.Ok? ==> sharedState == old(sharedState)[addr := s]
    {
      history := history + [Call.Insert(addr, s)];
      ReplayAppend(capacity, old(history), Call.Insert(addr, s));
      if |sharedState| >= capacity {
        return Err(LIMIT_REACHED);
      }
      result := Ok(Lookup(sharedState, addr));
      sharedState := sharedState[addr := s];
    }

    method Remove(addr: SocketAddr) returns (removed: Option<Metadata>)
      requires Valid()
      modifies this
      ensures Valid() && history == old(history) + [Call.Remove(addr)]
      ensures removed == Lookup(old(sharedState), addr)
      ensures sharedState == old(sharedState) - {addr}
    {
      history := history + [Call.Remove(addr)];
      ReplayAppend(capacity, old(history), Call.Remove(addr));
      removed := Lookup(sharedState, addr);
      sharedState := sharedState - {addr};
    }

    /** Some call of another task, whatever it returns. */
    method Perform(call: Call)
      requires Valid()
      modifies this
      ensures Valid() && history == old(history) + [call]
    {
      match call
      case Insert(addr, s) =>
        var _ := Insert(addr, s);
      case Remove(addr) =>
        var _ := Remove(addr);
      case _ =>
        history := history + [call];
        ReplayAppend(capacity, old(history), call);
    }

    method PerformAll(calls: seq<Call>)
      requires Valid()
      modifies this
      ensures Valid() && history == old(history) + calls
    {
      for i := 0 to |calls|
        invariant Valid() && history == old(history) + calls[..i]
      {
        Perform(calls[i]);
        assert calls[..i + 1] == calls[..i] + [calls[i]];
      }
      assert calls[..|calls|] == calls;
    }

    method Get(addr: SocketAddr) returns (found: Option<Metadata>)
      requires Valid()
      ensures found.None? <==> addr !in sharedState
      ensures found.Some? ==> Decided(capacity, history, addr, found.value)
    {
      found := Lookup(sharedState, addr);
      if found.Some? {
        RegisteredIff(capacity, history, addr, found.value);
      }
    }

    method NumConnections() returns (n: nat)
      requires Valid()
      ensures n == |sharedState| <= capacity
      ensures n + EffectiveRemoves(capacity, history) == FreshInserts(capacity, history)
    {
      SizeBalance(capacity, history);
      n := |sharedState|;
    }
  }
}
