/** A node: any number of connection tasks sharing the registry and the broadcast channel, and
    the heartbeat task publishing on it (node/run/src/main.rs, node/connection/src/lib.rs). */
module Node {
  import opened Wrappers
  import opened Protocol
  import opened ConnectionManagement
  import C = Connection
  import T = HeartbeatTimer

  datatype Task = Task(addr: SocketAddr, conn: C.Conn)

  datatype Node = Node(
    capacity: nat,
    maxPending: nat,
    registry: Registry,
    tasks: seq<Task>,
    channel: C.Broadcast,
    timer: T.Timer,
    heartbeat: Frame)   // encoded once, before the loop

  datatype Event =
    | Spawn(addr: SocketAddr)         // subscribe and spawn, on accept or on connect
    | Abandon(id: nat)                // the dial failed before `start` was reached
    | Turn(id: nat, turn: C.Event)
    | Beat(beat: T.Event)
    | CloseChannel                    // the last broadcast sender is dropped

  function Boot(capacity: nat, maxPending: nat, window: nat, period: nat, bind: SocketAddr, now: int): Node {
    Node(capacity, maxPending, map[], [], C.Broadcast([], window, true), T.Start(now, period),
         Encoded(HeartbeatMessage.Start(bind, now)))
  }

  /** Some broadcast receiver exists, so `sender.send` succeeds. */
  ghost predicate Heard(n: Node) {
    exists i :: 0 <= i < |n.tasks| && C.HoldsReceiver(n.tasks[i].conn)
  }

  /** Whether event `e` can happen now. The outcome of an insert is decided by the registry's
      size, the tick reads that size, and a publish fails exactly when nobody subscribes. */
  ghost predicate Enabled(n: Node, e: Event) {
    match e
    case Spawn(_) => n.channel.open
    case Abandon(i) => i < |n.tasks| && n.tasks[i].conn.phase.Opening?
    case Turn(i, t) =>
      && i < |n.tasks| && C.Enabled(n.tasks[i].conn, t, n.channel)
      && (t == C.Register ==> |n.registry| < n.capacity)
      && (t == C.Refuse ==> |n.registry| >= n.capacity)
    case Beat(b) =>
      && T.Enabled(n.timer, b)
      && (b.Tick? ==> b.connected == (|n.registry| > 0))
      && (b.Publish? ==> b.heard == Heard(n))
    case CloseChannel => n.timer.phase.Quit? && n.channel.open
  }

  /** The registry call a turn makes, if any. */
  function CallOf(n: Node, i: nat, t: C.Event): Call
    requires i < |n.tasks|
  {
    var addr := n.tasks[i].addr;
    if t == C.Register || t == C.Refuse then Insert(addr, Metadata(n.timer.now))
    else if t == C.Unregister then Remove(addr)
    else NumConnections
  }

  function SetConn(n: Node, i: nat, c: C.Conn): Node
    requires i < |n.tasks|
  {
    n.(tasks := n.tasks[i := n.tasks[i].(conn := c)])
  }

  ghost function Next(n: Node, e: Event): Node
    requires Enabled(n, e)
  {
    match e
    case Spawn(addr) => n.(tasks := n.tasks + [Task(addr, C.Spawn(n.maxPending, n.channel))])
    case Abandon(i) => SetConn(n, i, n.tasks[i].conn.(phase := C.Refused))
    case Turn(i, t) =>
      SetConn(n, i, C.Next(n.tasks[i].conn, t, n.channel))
        .(registry := Apply(n.capacity, n.registry, CallOf(n, i, t)))
    case Beat(b) =>
      var channel := if b == T.Publish(true) then n.channel.(log := n.channel.log + [n.heartbeat]) else n.channel;
      n.(timer := T.Next(n.timer, b), channel := channel)
    case CloseChannel => n.(channel := n.channel.(open := false))
  }

  /** The state a sequence of events leads to, if every event is enabled in its turn. */
  ghost function Run(n: Node, es: seq<Event>): Option<Node>
    decreases |es|
  {
    if es == [] then Some(n)
    else if Enabled(n, es[0]) then Run(Next(n, es[0]), es[1..])
    else None
  }

  // ---------------------------------------------------------------- invariant

  /** A task between its successful insert and its removal is registered under `a`. */
  ghost predicate LiveAt(n: Node, a: SocketAddr) {
    exists i :: 0 <= i < |n.tasks| && C.Live(n.tasks[i].conn) && n.tasks[i].addr == a
  }

  ghost predicate TaskInv(n: Node, i: nat)
    requires i < |n.tasks|
  {
    C.Inv(n.tasks[i].conn, n.channel) && n.tasks[i].conn.inbox.maxPending == n.maxPending
  }

  ghost predicate TasksInv(n: Node) {
    forall i :: 0 <= i < |n.tasks| ==> TaskInv(n, i)
  }

  ghost predicate RegistryInv(n: Node) {
    && |n.registry| <= n.capacity
    && forall a :: a in n.registry ==> LiveAt(n, a)
  }

  ghost predicate BeatInv(n: Node) {
    && T.Inv(n.timer)
    && |n.channel.log| == T.Sends(n.timer.marks)
    && (forall k :: 0 <= k < |n.channel.log| ==> n.channel.log[k] == n.heartbeat)
    && IsHeartbeat(n.heartbeat)
    && (!n.channel.open ==> n.timer.phase.Quit?)
  }

  ghost predicate Inv(n: Node) {
    TasksInv(n) && RegistryInv(n) && BeatInv(n)
  }

  lemma NextTasks(n: Node, e: Event)
    requires TasksInv(n) && Enabled(n, e)
    ensures TasksInv(Next(n, e))
  {
    var next := Next(n, e);
    forall j | 0 <= j < |next.tasks| ensures TaskInv(next, j) {
      if j == |n.tasks| {
        C.SpawnInv(n.maxPending, n.channel);
      } else {
        assert TaskInv(n, j);
        var c := n.tasks[j].conn;
        if e.Turn? && e.id == j {
          C.NextInv(c, e.turn, n.channel);
          C.NextKeepsBound(c, e.turn, n.channel);
        } else if e.Abandon? && e.id == j {
          C.NextInv(c, C.Refuse, n.channel);
        } else {
          C.ExtendInv(c, n.channel, next.channel);
        }
      }
    }
  }

  lemma TurnLive(c: C.Conn, e: C.Event, ch: C.Broadcast)
    requires C.PhaseInv(c) && C.Enabled(c, e, ch)
    ensures C.Live(C.Next(c, e, ch)) <==> e == C.Register || (C.Live(c) && e != C.Unregister)
  {
    C.NextPhase(c, e, ch);
  }

  /** A live task stays live, at the same address, until it unregisters. */
  lemma LiveStays(n: Node, e: Event, i: nat)
    requires Enabled(n, e) && i < |n.tasks| && C.PhaseInv(n.tasks[i].conn) && C.Live(n.tasks[i].conn)
    requires e != Turn(i, C.Unregister)
    ensures LiveAt(Next(n, e), n.tasks[i].addr)
  {
    if e.Turn? && e.id == i {
      TurnLive(n.tasks[i].conn, e.turn, n.channel);
    }
    var next := Next(n, e);
    assert C.Live(next.tasks[i].conn) && next.tasks[i].addr == n.tasks[i].addr;
  }

  lemma RegistrySize(n: Node, e: Event)
    requires |n.registry| <= n.capacity && Enabled(n, e)
    ensures |Next(n, e).registry| <= n.capacity == Next(n, e).capacity
  {
    if e.Turn? {
      ApplySize(n.capacity, n.registry, CallOf(n, e.id, e.turn));
    }
  }

  /** An entry after a step was there before, unless the step registered it. */
  lemma RegistryEntry(n: Node, e: Event, a: SocketAddr)
    requires Enabled(n, e) && a in Next(n, e).registry
    ensures (e.Turn? && e.turn == C.Register && n.tasks[e.id].addr == a) || a in n.registry
    ensures e.Turn? && e.turn == C.Unregister ==> n.tasks[e.id].addr != a
  {
  }

  lemma NextRegistry(n: Node, e: Event)
    requires TasksInv(n) && RegistryInv(n) && Enabled(n, e)
    ensures RegistryInv(Next(n, e))
  {
    RegistrySize(n, e);
    forall a | a in Next(n, e).registry ensures LiveAt(Next(n, e), a) {
      RegistryEntry(n, e, a);
      if e.Turn? && e.turn == C.Register && a == n.tasks[e.id].addr {
        assert C.Live(Next(n, e).tasks[e.id].conn) && Next(n, e).tasks[e.id].addr == a;
      } else {
        assert LiveAt(n, a);
        var i :| 0 <= i < |n.tasks| && C.Live(n.tasks[i].conn) && n.tasks[i].addr == a;
        assert TaskInv(n, i);
        LiveStays(n, e, i);
      }
    }
  }

  lemma NextBeat(n: Node, e: Event)
    requires BeatInv(n) && Enabled(n, e)
    ensures BeatInv(Next(n, e))
  {
    if e.Beat? {
      T.NextInv(n.timer, e.beat);
      if e.beat == T.Publish(true) {
        T.SendsAppend(n.timer.marks, T.SentAt(n.timer.now));
      } else if e.beat == T.Reset {
        T.SendsAppend(n.timer.marks, T.ResetAt(n.timer.now));
      }
    }
  }

  lemma {:induction false} RunInv(n: Node, es: seq<Event>)
    requires Inv(n) && Run(n, es).Some?
    ensures Inv(Run(n, es).value)
    decreases |es|
  {
    if es != [] {
      NextTasks(n, es[0]);
      NextRegistry(n, es[0]);
      NextBeat(n, es[0]);
      RunInv(Next(n, es[0]), es[1..]);
    }
  }

  /** A state some run of a freshly booted node leads to. */
  ghost predicate Reachable(n: Node) {
    exists capacity, maxPending, window, period, bind, now, es ::
      Run(Boot(capacity, maxPending, window, period, bind, now), es) == Some(n)
  }

  lemma BootInv(capacity: nat, maxPending: nat, window: nat, period: nat, bind: SocketAddr, now: int)
    ensures Inv(Boot(capacity, maxPending, window, period, bind, now))
  {
    var n := Boot(capacity, maxPending, window, period, bind, now);
    assert n.registry == map[] && n.tasks == [];
    assert T.Sends([]) == 0;
  }

  lemma ReachableInv(n: Node)
    requires Reachable(n)
    ensures Inv(n)
  {
    var capacity, maxPending, window, period, bind, now, es :|
      Run(Boot(capacity, maxPending, window, period, bind, now), es) == Some(n);
    BootInv(capacity, maxPending, window, period, bind, now);
    RunInv(Boot(capacity, maxPending, window, period, bind, now), es);
  }
}
