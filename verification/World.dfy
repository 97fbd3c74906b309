/** Whole networks: any number of nodes running this code, each with its shared registry and its
    one broadcast channel, whose connection tasks are wired to one another in pairs. */
module Worlds {
  import opened Wrappers
  import opened Protocol
  import opened Sequences
  import C = Connection
  import T = HeartbeatTimer
  import N = Node
  import P = NodeProperties
  import L = Link
  import H = Handshake
  import Q = Quiescence
  import K = Completion
  import F = Flooding

  /** The `task`-th task of the `node`-th node. */
  datatype Place = Place(node: nat, task: nat)

  /** `wires` says which tasks, present or to come, are the two ends of one stream. A task that is
      not wired talks to a peer that runs some other code and may send anything. */
  datatype World = World(nodes: seq<N.Node>, wires: map<Place, Place>)

  datatype Event = On(node: nat, event: N.Event)

  ghost predicate Paired(wires: map<Place, Place>) {
    forall p :: p in wires ==> wires[p] != p && wires[p] in wires && wires[wires[p]] == p
  }

  predicate Spawned(w: World, p: Place) {
    p.node < |w.nodes| && p.task < |w.nodes[p.node].tasks|
  }

  /** The end at `p`. A task not yet spawned has read and sent nothing. */
  function EndAt(w: World, p: Place): L.End {
    if Spawned(w, p) then L.End(w.nodes[p.node].tasks[p.task].conn, w.nodes[p.node].channel)
    else L.Fresh(0, 0)
  }

  function LinkAt(w: World, p: Place, q: Place): L.Link {
    L.Link(EndAt(w, p), EndAt(w, q))
  }

  /** Node steps, except that a wired task reads what its peer's sink accepted, in order. */
  ghost predicate Enabled(w: World, e: Event) {
    && e.node < |w.nodes| && N.Enabled(w.nodes[e.node], e.event)
    && (e.event.Turn? && e.event.turn.Read? && e.event.turn.item.Data? ==>
          var p := Place(e.node, e.event.id);
          p in w.wires ==>
            var u := L.Unread(EndAt(w, p).conn, EndAt(w, w.wires[p]).conn);
            u != [] && e.event.turn.item.frame == u[0])
  }

  ghost function Next(w: World, e: Event): World
    requires Enabled(w, e)
  {
    w.(nodes := w.nodes[e.node := N.Next(w.nodes[e.node], e.event)])
  }

  ghost function Run(w: World, es: seq<Event>): Option<World>
    decreases |es|
  {
    if es == [] then Some(w)
    else if Enabled(w, es[0]) then Run(Next(w, es[0]), es[1..])
    else None
  }

  // ---------------------------------------------------------------- each node on its own

  function EventsOf(es: seq<Event>, i: nat): seq<N.Event> {
    if es == [] then [] else (if es[0].node == i then [es[0].event] else []) + EventsOf(es[1..], i)
  }

  /** What a node does inside a network is a run of that node. */
  lemma {:induction false} NodeRuns(w: World, es: seq<Event>, i: nat)
    requires i < |w.nodes| && Run(w, es).Some?
    ensures var v := Run(w, es).value;
            |v.nodes| == |w.nodes| && v.wires == w.wires
            && N.Run(w.nodes[i], EventsOf(es, i)) == Some(v.nodes[i])
    decreases |es|
  {
    if es != [] {
      NodeRuns(Next(w, es[0]), es[1..], i);
      if es[0].node == i {
        assert ([es[0].event] + EventsOf(es[1..], i))[1..] == EventsOf(es[1..], i);
      } else {
        assert EventsOf(es, i) == EventsOf(es[1..], i);
      }
    }
  }

  // ---------------------------------------------------------------- each link on its own

  /** What a step means to the end at `p`, on side `s` of its link. */
  function ProjectSide(w: World, e: Event, p: Place, s: L.Side): seq<L.Event> {
    if e.node != p.node || !Spawned(w, p) then []
    else
      match e.event
      case Turn(i, t) => if i == p.task then [L.Act(s, t)] else []
      case Abandon(i) => if i == p.task then [L.Act(s, C.Refuse)] else []
      case Beat(b) => if b == T.Publish(true) then [L.Publish(s, w.nodes[e.node].heartbeat)] else []
      case CloseChannel => [L.CloseChannel(s)]
      case Spawn(_) => []
  }

  function Project(w: World, e: Event, p: Place, q: Place): seq<L.Event> {
    ProjectSide(w, e, p, L.Left) + ProjectSide(w, e, q, L.Right)
  }

  ghost predicate Spawns(w: World, e: Event, p: Place)
    requires Enabled(w, e)
  {
    !Spawned(w, p) && Spawned(Next(w, e), p)
  }

  /** An end changes by what the step means to it. */
  lemma EndStep(w: World, e: Event, p: Place, s: L.Side)
    requires Enabled(w, e) && !Spawns(w, e, p)
    requires Spawned(w, p) ==> N.BeatInv(w.nodes[p.node])
    ensures var es := ProjectSide(w, e, p, s);
            && |es| <= 1
            && (es == [] ==> EndAt(Next(w, e), p) == EndAt(w, p))
            && (es != [] ==>
                  && es[0].side == s && Spawned(w, p)
                  && (es[0].Act? ==> C.Enabled(EndAt(w, p).conn, es[0].turn, EndAt(w, p).channel))
                  && (!es[0].Act? ==> EndAt(w, p).channel.open)
                  && EndAt(Next(w, e), p) == L.NextEnd(EndAt(w, p), es[0]))
  {
  }

  /** The step is possible at its end of the link. */
  lemma SideEnabled(w: World, e: Event, p: Place, q: Place, s: L.Side, l: L.Link)
    requires Enabled(w, e) && !Spawns(w, e, p) && ProjectSide(w, e, p, s) != []
    requires Spawned(w, p) ==> N.BeatInv(w.nodes[p.node])
    requires p in w.wires && w.wires[p] == q
    requires l.Near(s) == EndAt(w, p) && (e.event.Turn? ==> l.Far(s) == EndAt(w, q))
    ensures L.Enabled(l, ProjectSide(w, e, p, s)[0])
  {
    EndStep(w, e, p, s);
  }

  lemma RunOne(l: L.Link, e: L.Event)
    requires L.Enabled(l, e)
    ensures L.Run(l, [e]) == Some(L.Next(l, e))
  {
    assert L.Run(L.Next(l, e), [e][1..]) == Some(L.Next(l, e));
  }

  /** A step of the network is at most one step of a given link at each end. */
  lemma LinkStep(w: World, e: Event, p: Place, q: Place)
    requires Enabled(w, e) && Paired(w.wires) && p in w.wires && w.wires[p] == q
    requires !Spawns(w, e, p) && !Spawns(w, e, q)
    requires Spawned(w, p) ==> N.BeatInv(w.nodes[p.node])
    requires Spawned(w, q) ==> N.BeatInv(w.nodes[q.node])
    ensures L.Run(LinkAt(w, p, q), Project(w, e, p, q)) == Some(LinkAt(Next(w, e), p, q))
  {
    var l := LinkAt(w, p, q);
    var a, b := ProjectSide(w, e, p, L.Left), ProjectSide(w, e, q, L.Right);
    EndStep(w, e, p, L.Left);
    EndStep(w, e, q, L.Right);
    if a == [] && b == [] {
      assert a + b == [];
    } else if b == [] {
      assert a + b == [a[0]];
      SideEnabled(w, e, p, q, L.Left, l);
      RunOne(l, a[0]);
    } else if a == [] {
      assert a + b == [b[0]];
      SideEnabled(w, e, q, p, L.Right, l);
      RunOne(l, b[0]);
    } else {
      SideEnabled(w, e, p, q, L.Left, l);
      var m := L.Next(l, a[0]);
      SideEnabled(w, e, q, p, L.Right, m);
      assert (a + b)[1..] == [b[0]];
      RunOne(m, b[0]);
    }
  }

  /** The events of the link between `p` and `q` in a run of the network. */
  ghost function ProjectAll(w: World, es: seq<Event>, p: Place, q: Place): seq<L.Event>
    decreases |es|
  {
    if es == [] || !Enabled(w, es[0]) then []
    else Project(w, es[0], p, q) + ProjectAll(Next(w, es[0]), es[1..], p, q)
  }

  lemma {:induction false} LinkRunConcat(l: L.Link, es: seq<L.Event>, more: seq<L.Event>)
    requires L.Run(l, es).Some?
    ensures L.Run(l, es + more) == L.Run(L.Run(l, es).value, more)
    decreases |es|
  {
    if es == [] {
      assert es + more == more;
    } else {
      assert (es + more)[1..] == es[1..] + more;
      LinkRunConcat(L.Next(l, es[0]), es[1..], more);
    }
  }

  lemma StepKeeps(w: World, e: Event, p: Place)
    requires Enabled(w, e) && forall i :: 0 <= i < |w.nodes| ==> N.Inv(w.nodes[i])
    ensures forall i :: 0 <= i < |w.nodes| ==> N.Inv(Next(w, e).nodes[i])
    ensures Spawned(w, p) ==> Spawned(Next(w, e), p)
  {
    P.StepRun(w.nodes[e.node], [e.event]);
  }

  /** Once two wired tasks are spawned, what they do inside a network of any size is a run of
      their link, with the heartbeats of their two nodes as its broadcasts: whatever holds of
      every run of a link holds of every pair of tasks. */
  lemma {:induction false} LinkRuns(w: World, es: seq<Event>, p: Place, q: Place)
    requires Paired(w.wires) && p in w.wires && w.wires[p] == q && Spawned(w, p) && Spawned(w, q)
    requires (forall i :: 0 <= i < |w.nodes| ==> N.Inv(w.nodes[i])) && Run(w, es).Some?
    ensures L.Run(LinkAt(w, p, q), ProjectAll(w, es, p, q)) == Some(LinkAt(Run(w, es).value, p, q))
    ensures forall e :: e in ProjectAll(w, es, p, q) ==> H.CalmEvent(e)
    decreases |es|
  {
    if es != [] {
      var next := Next(w, es[0]);
      assert N.Inv(w.nodes[p.node]) && N.Inv(w.nodes[q.node]);
      StepKeeps(w, es[0], p);
      StepKeeps(w, es[0], q);
      LinkStep(w, es[0], p, q);
      LinkRunConcat(LinkAt(w, p, q), Project(w, es[0], p, q), ProjectAll(next, es[1..], p, q));
      LinkRuns(next, es[1..], p, q);
      ProjectCalm(w, es[0], p, q);
    }
  }

  lemma ProjectCalm(w: World, e: Event, p: Place, q: Place)
    requires Enabled(w, e) && N.BeatInv(w.nodes[e.node])
    ensures forall f :: f in Project(w, e, p, q) ==> H.CalmEvent(f)
  {
  }

  // ---------------------------------------------------------------- from the start

  ghost predicate IsBoot(n: N.Node) {
    exists capacity, maxPending, window, period, bind, now ::
      n == N.Boot(capacity, maxPending, window, period, bind, now)
  }

  /** Freshly booted nodes, configured as each likes, and any wiring. */
  ghost predicate Booted(w: World) {
    Paired(w.wires) && forall i :: 0 <= i < |w.nodes| ==> IsBoot(w.nodes[i])
  }

  ghost predicate Honest(l: L.Link) {
    L.Inv(l) && H.Polite(l.left) && H.Polite(l.right)
  }

  ghost predicate Inv(w: World) {
    && Paired(w.wires)
    && (forall i :: 0 <= i < |w.nodes| ==> N.Inv(w.nodes[i]))
    && (forall p :: p in w.wires ==> Honest(LinkAt(w, p, w.wires[p])))
  }

  /** How many heartbeats a node has broadcast. */
  function Heartbeats(w: World, i: nat): nat {
    if i < |w.nodes| then |w.nodes[i].channel.log| else 0
  }

  lemma BootInv(w: World)
    requires Booted(w)
    ensures Inv(w)
  {
    forall i | 0 <= i < |w.nodes| ensures N.Inv(w.nodes[i]) {
      BootNode(w.nodes[i]);
    }
    H.FreshPolite(0, 0, 0, 0);
    forall p | p in w.wires ensures Honest(LinkAt(w, p, w.wires[p])) {
      BootEnd(w, p);
      BootEnd(w, w.wires[p]);
    }
  }

  lemma BootNode(n: N.Node)
    requires IsBoot(n)
    ensures N.Inv(n) && n.tasks == [] && n.channel.log == []
  {
    var capacity, maxPending, window, period, bind, now :|
      n == N.Boot(capacity, maxPending, window, period, bind, now);
    N.BootInv(capacity, maxPending, window, period, bind, now);
  }

  lemma BootEnd(w: World, p: Place)
    requires Booted(w)
    ensures EndAt(w, p) == L.Fresh(0, 0) && Heartbeats(w, p.node) == 0
  {
    if p.node < |w.nodes| {
      BootNode(w.nodes[p.node]);
    }
  }

  /** The end is as its task was spawned. */
  ghost predicate JustSpawned(end: L.End) {
    end.conn == C.Spawn(end.conn.inbox.maxPending, end.channel)
  }

  /** Spawning a task touches its own end only. */
  lemma SpawnEnd(w: World, e: Event, p: Place, q: Place)
    requires Enabled(w, e) && Spawns(w, e, p) && p != q && N.BeatInv(w.nodes[e.node])
    ensures JustSpawned(EndAt(w, p)) && JustSpawned(EndAt(Next(w, e), p))
    ensures H.Polite(EndAt(Next(w, e), p)) && EndAt(Next(w, e), q) == EndAt(w, q) && e.event.Spawn?
  {
    assert e.event.Spawn? && e.node == p.node;
  }

  lemma SpawnKeepsHonest(l: L.Link, s: L.Side, end: L.End)
    requires Honest(l) && JustSpawned(l.Near(s)) && JustSpawned(end) && H.Polite(end)
    ensures Honest(l.Set(s, end))
  {
    C.SpawnInv(end.conn.inbox.maxPending, end.channel);
    assert C.FramesOf(end.conn.inbox.items) == [] && end.conn.sent == l.Near(s).conn.sent;
    assert L.InOrder(end.conn, l.Far(s).conn) && L.InOrder(l.Far(s).conn, end.conn);
  }

  lemma SpawnEffort(end: L.End)
    requires JustSpawned(end)
    ensures Q.Effort(end.conn, end.channel) == 15
  {
    assert Q.Backlog(end.conn, end.channel) == [];
    assert Total<Frame>([], Q.QueuedCost) == 0 && Total<Frame>([], Q.BacklogCost) == 0;
  }

  lemma SpawnKeepsPotential(l: L.Link, s: L.Side, end: L.End)
    requires JustSpawned(l.Near(s)) && JustSpawned(end)
    ensures Q.Potential(l.Set(s, end)) == Q.Potential(l)
  {
    SpawnEffort(end);
    SpawnEffort(l.Near(s));
    var near, far := l.Near(s).conn, l.Far(s).conn;
    assert L.Unread(end.conn, far) == L.Unread(near, far) && L.Unread(far, end.conn) == L.Unread(far, near);
  }

  /** `m` is an honest link that `l` gives way to by the events `es`. */
  ghost predicate Advances(l: L.Link, es: seq<L.Event>, m: L.Link) {
    Honest(m) && Q.Acts(es) + Q.Potential(m) <= Q.Potential(l) + 12 * Q.Publishes(es)
  }

  lemma RunAdvances(l: L.Link, es: seq<L.Event>)
    requires Honest(l) && L.Run(l, es).Some? && forall e :: e in es ==> H.CalmEvent(e)
    ensures Advances(l, es, L.Run(l, es).value)
  {
    H.PoliteRun(l, es);
    Q.TurnsBounded(l, es);
  }

  lemma SpawnAdvances(l: L.Link, s: L.Side, end: L.End)
    requires Honest(l) && JustSpawned(l.Near(s)) && JustSpawned(end) && H.Polite(end)
    ensures Advances(l, [], l.Set(s, end))
  {
    SpawnKeepsHonest(l, s, end);
    SpawnKeepsPotential(l, s, end);
  }

  lemma MoveAdvances(w: World, e: Event, p: Place, q: Place)
    requires Enabled(w, e) && Paired(w.wires) && p in w.wires && w.wires[p] == q && Honest(LinkAt(w, p, q))
    requires !Spawns(w, e, p) && !Spawns(w, e, q)
    requires forall i :: 0 <= i < |w.nodes| ==> N.BeatInv(w.nodes[i])
    ensures Advances(LinkAt(w, p, q), Project(w, e, p, q), LinkAt(Next(w, e), p, q))
  {
    LinkStep(w, e, p, q);
    ProjectCalm(w, e, p, q);
    RunAdvances(LinkAt(w, p, q), Project(w, e, p, q));
  }

  lemma SpawnProjects(w: World, e: Event, p: Place, q: Place)
    requires Enabled(w, e) && e.event.Spawn?
    ensures Project(w, e, p, q) == []
  {
  }

  /** What spawning `p` means to its link, seen from either side. */
  lemma SpawnLink(w: World, e: Event, p: Place, q: Place)
    requires Enabled(w, e) && p != q && Spawns(w, e, p) && N.BeatInv(w.nodes[e.node])
    ensures var end := EndAt(Next(w, e), p);
            && JustSpawned(EndAt(w, p)) && JustSpawned(end) && H.Polite(end)
            && LinkAt(Next(w, e), p, q) == LinkAt(w, p, q).Set(L.Left, end)
            && LinkAt(Next(w, e), q, p) == LinkAt(w, q, p).Set(L.Right, end)
    ensures Project(w, e, p, q) == [] && Project(w, e, q, p) == []
  {
    SpawnEnd(w, e, p, q);
    SpawnProjects(w, e, p, q);
    SpawnProjects(w, e, q, p);
  }

  lemma LeftSpawns(w: World, e: Event, p: Place, q: Place)
    requires Enabled(w, e) && p != q && Spawns(w, e, p) && N.BeatInv(w.nodes[e.node]) && Honest(LinkAt(w, p, q))
    ensures Advances(LinkAt(w, p, q), Project(w, e, p, q), LinkAt(Next(w, e), p, q))
  {
    SpawnLink(w, e, p, q);
    SpawnAdvances(LinkAt(w, p, q), L.Left, EndAt(Next(w, e), p));
  }

  function Swap(l: L.Link): L.Link {
    L.Link(l.right, l.left)
  }

  lemma SwapHonest(l: L.Link)
    requires Honest(l)
    ensures Honest(Swap(l)) && Q.Potential(Swap(l)) == Q.Potential(l)
  {
  }

  lemma RightSpawns(w: World, e: Event, p: Place, q: Place)
    requires Enabled(w, e) && p != q && Spawns(w, e, q) && N.BeatInv(w.nodes[e.node]) && Honest(LinkAt(w, p, q))
    ensures Advances(LinkAt(w, p, q), Project(w, e, p, q), LinkAt(Next(w, e), p, q))
  {
    SwapHonest(LinkAt(w, p, q));
    assert Swap(LinkAt(w, p, q)) == LinkAt(w, q, p);
    SpawnLink(w, e, q, p);
    LeftSpawns(w, e, q, p);
    SwapHonest(LinkAt(Next(w, e), q, p));
  }

  /** A step keeps each link honest, and its potential drops by the turns its tasks take and
      grows by at most twelve per heartbeat at either node. */
  lemma PairStep(w: World, e: Event, p: Place, q: Place)
    requires Enabled(w, e) && Paired(w.wires) && p in w.wires && w.wires[p] == q && Honest(LinkAt(w, p, q))
    requires forall i :: 0 <= i < |w.nodes| ==> N.BeatInv(w.nodes[i])
    ensures Advances(LinkAt(w, p, q), Project(w, e, p, q), LinkAt(Next(w, e), p, q))
  {
    if Spawns(w, e, p) {
      LeftSpawns(w, e, p, q);
    } else if Spawns(w, e, q) {
      RightSpawns(w, e, p, q);
    } else {
      MoveAdvances(w, e, p, q);
    }
  }

  lemma InvStep(w: World, e: Event)
    requires Inv(w) && Enabled(w, e)
    ensures Inv(Next(w, e))
  {
    StepKeeps(w, e, Place(0, 0));
    forall p | p in w.wires ensures Honest(LinkAt(Next(w, e), p, w.wires[p])) {
      PairStep(w, e, p, w.wires[p]);
    }
  }

  lemma {:induction false} RunInv(w: World, es: seq<Event>)
    requires Inv(w) && Run(w, es).Some?
    ensures Inv(Run(w, es).value)
    decreases |es|
  {
    if es != [] {
      InvStep(w, es[0]);
      RunInv(Next(w, es[0]), es[1..]);
    }
  }

  /** In every run of every network, whatever else its nodes do: between any two wired tasks the
      handshake is orderly in both directions, each has read a prefix of what the other sent,
      and when both have handled everything and greeted, each has handled exactly one `helo`
      and one `oleh`. */
  lemma NetworkHandshakes(w: World, es: seq<Event>, p: Place)
    requires Booted(w) && Run(w, es).Some? && p in w.wires
    ensures var v := Run(w, es).value;
            var near, far := EndAt(v, p).conn, EndAt(v, w.wires[p]).conn;
            && H.Orderly(near, far) && H.Orderly(far, near) && L.InOrder(near, far) && L.InOrder(far, near)
            && (H.CaughtUp(near, far) && H.CaughtUp(far, near) && near.heloSent && far.heloSent ==>
                  && Total(near.inbox.handled, CountHelo) == Total(near.inbox.handled, CountOleh) == 1
                  && Total(far.inbox.handled, CountHelo) == Total(far.inbox.handled, CountOleh) == 1)
  {
    BootInv(w);
    RunInv(w, es);
    WiresFixed(w, es);
    var l := LinkAt(Run(w, es).value, p, w.wires[p]);
    assert Honest(l);
    H.HandshakeOrderly(l, []);
  }

  /** In every run of every network, a task whose peer runs this code never has its queue overflow
      if it has room for two frames and every heartbeat broadcast at the peer's node. */
  lemma NetworkNeverFloods(w: World, es: seq<Event>, p: Place)
    requires Booted(w) && Run(w, es).Some? && p in w.wires
    requires F.Room(EndAt(Run(w, es).value, p), EndAt(Run(w, es).value, w.wires[p]))
    ensures EndAt(Run(w, es).value, p).conn.inbox.rejected == []
  {
    BootInv(w);
    RunInv(w, es);
    WiresFixed(w, es);
    var l := LinkAt(Run(w, es).value, p, w.wires[p]);
    assert Honest(l);
    F.NeverFlooded(l.left, l.right);
  }

  lemma {:induction false} WiresFixed(w: World, es: seq<Event>)
    requires Run(w, es).Some?
    ensures Run(w, es).value.wires == w.wires && |Run(w, es).value.nodes| == |w.nodes|
    decreases |es|
  {
    if es != [] {
      WiresFixed(Next(w, es[0]), es[1..]);
    }
  }

  // ---------------------------------------------------------------- how long it lasts

  /** The step is a turn of the task at `p`. */
  predicate Moves(e: Event, p: Place) {
    e.node == p.node && ((e.event.Turn? || e.event.Abandon?) && e.event.id == p.task)
  }

  function Turns(es: seq<Event>, p: Place): nat {
    if es == [] then 0 else (if Moves(es[0], p) then 1 else 0) + Turns(es[1..], p)
  }

  lemma SideCounted(w: World, e: Event, p: Place, s: L.Side)
    requires Enabled(w, e)
    ensures var es := ProjectSide(w, e, p, s);
            && Q.Acts(es) == (if Moves(e, p) then 1 else 0)
            && Heartbeats(w, p.node) + Q.Publishes(es) <= Heartbeats(Next(w, e), p.node)
  {
    var es := ProjectSide(w, e, p, s);
    if es != [] {
      assert es == [es[0]] && es[1..] == [];
    }
  }

  lemma {:induction false} ActsConcat(es: seq<L.Event>, more: seq<L.Event>)
    ensures Q.Acts(es + more) == Q.Acts(es) + Q.Acts(more)
    ensures Q.Publishes(es + more) == Q.Publishes(es) + Q.Publishes(more)
    decreases |es|
  {
    if es == [] {
      assert es + more == more;
    } else {
      assert (es + more)[1..] == es[1..] + more;
      ActsConcat(es[1..], more);
    }
  }

  lemma StepCounted(w: World, e: Event, p: Place, q: Place)
    requires Enabled(w, e) && Advances(LinkAt(w, p, q), Project(w, e, p, q), LinkAt(Next(w, e), p, q))
    ensures (if Moves(e, p) then 1 else 0) + (if Moves(e, q) then 1 else 0) + Q.Potential(LinkAt(Next(w, e), p, q))
            <= Q.Potential(LinkAt(w, p, q))
               + 12 * (Heartbeats(Next(w, e), p.node) - Heartbeats(w, p.node))
               + 12 * (Heartbeats(Next(w, e), q.node) - Heartbeats(w, q.node))
  {
    SideCounted(w, e, p, L.Left);
    SideCounted(w, e, q, L.Right);
    ActsConcat(ProjectSide(w, e, p, L.Left), ProjectSide(w, e, q, L.Right));
  }

  /** Over any run of a network the turns two wired tasks take, and those they still owe, are
      bounded by those owed before and twelve for each heartbeat at either node. */
  lemma {:induction false} PairTurnsBounded(w: World, es: seq<Event>, p: Place)
    requires Inv(w) && Run(w, es).Some? && p in w.wires
    ensures var v, q := Run(w, es).value, w.wires[p];
            Turns(es, p) + Turns(es, q) + Q.Potential(LinkAt(v, p, q))
            <= Q.Potential(LinkAt(w, p, q))
               + 12 * (Heartbeats(v, p.node) - Heartbeats(w, p.node))
               + 12 * (Heartbeats(v, q.node) - Heartbeats(w, q.node))
    decreases |es|
  {
    if es != [] {
      var q := w.wires[p];
      assert Honest(LinkAt(w, p, q));
      PairStep(w, es[0], p, q);
      StepCounted(w, es[0], p, q);
      InvStep(w, es[0]);
      PairTurnsBounded(Next(w, es[0]), es[1..], p);
    }
  }

  lemma BootPotential(w: World, p: Place)
    requires Booted(w) && p in w.wires
    ensures Q.Potential(LinkAt(w, p, w.wires[p])) == 30 && Heartbeats(w, p.node) == 0
  {
    var q := w.wires[p];
    BootEnd(w, p);
    BootEnd(w, q);
    SpawnEffort(L.Fresh(0, 0));
    assert L.Unread(EndAt(w, p).conn, EndAt(w, q).conn) == [];
    assert Total<Frame>([], Q.UnreadCost) == 0;
  }

  /** Whole periods of a node's heartbeat since it was started. */
  function Elapsed(n: N.Node): int
    requires n.timer.period >= 1
  {
    (n.timer.now - n.timer.started) / n.timer.period
  }

  /** From the start of a network, however it is scheduled and whatever breaks, two wired tasks
      take at most thirty turns and twelve for each heartbeat period of either node: their
      conversation is kept going by nothing else. */
  lemma NetworkTurnsBounded(w: World, es: seq<Event>, p: Place)
    requires Booted(w) && Run(w, es).Some? && p in w.wires
    requires p.node < |w.nodes| && w.wires[p].node < |w.nodes|
    requires w.nodes[p.node].timer.period >= 1 && w.nodes[w.wires[p].node].timer.period >= 1
    ensures var v, q := Run(w, es).value, w.wires[p];
            && |v.nodes| == |w.nodes|
            && v.nodes[p.node].timer.period == w.nodes[p.node].timer.period
            && v.nodes[q.node].timer.period == w.nodes[q.node].timer.period
            && Turns(es, p) + Turns(es, q)
               <= 30 + 12 * (Elapsed(v.nodes[p.node]) + 1) + 12 * (Elapsed(v.nodes[q.node]) + 1)
  {
    var q := w.wires[p];
    BootInv(w);
    PairTurnsBounded(w, es, p);
    BootPotential(w, p);
    BootPotential(w, q);
    NodeHeartbeats(w, es, p.node);
    NodeHeartbeats(w, es, q.node);
  }

  /** Every state of a node in a network is one a run of that node alone leads to. */
  lemma NodeReachable(w: World, es: seq<Event>, i: nat)
    requires Booted(w) && Run(w, es).Some? && i < |w.nodes|
    ensures var v := Run(w, es).value;
            && |v.nodes| == |w.nodes| && v.nodes[i].timer.period == w.nodes[i].timer.period
            && N.Reachable(v.nodes[i])
  {
    NodeRuns(w, es, i);
    PeriodFixed(w.nodes[i], EventsOf(es, i));
    assert IsBoot(w.nodes[i]);
    FromBoot(w.nodes[i], EventsOf(es, i), Run(w, es).value.nodes[i]);
  }

  lemma FromBoot(boot: N.Node, es: seq<N.Event>, n: N.Node)
    requires IsBoot(boot) && N.Run(boot, es) == Some(n)
    ensures N.Reachable(n)
  {
    var capacity, maxPending, window, period, bind, now :|
      boot == N.Boot(capacity, maxPending, window, period, bind, now);
    assert N.Run(N.Boot(capacity, maxPending, window, period, bind, now), es) == Some(n);
  }

  lemma NodeHeartbeats(w: World, es: seq<Event>, i: nat)
    requires Booted(w) && Run(w, es).Some? && i < |w.nodes| && w.nodes[i].timer.period >= 1
    ensures var v := Run(w, es).value;
            && |v.nodes| == |w.nodes| && v.nodes[i].timer.period == w.nodes[i].timer.period
            && Heartbeats(v, i) <= Elapsed(v.nodes[i]) + 1
  {
    NodeReachable(w, es, i);
    P.HeartbeatsBounded(Run(w, es).value.nodes[i]);
  }

  lemma {:induction false} PeriodFixed(n: N.Node, es: seq<N.Event>)
    requires N.Run(n, es).Some?
    ensures N.Run(n, es).value.timer.period == n.timer.period
    decreases |es|
  {
    if es != [] {
      PeriodFixed(N.Next(n, es[0]), es[1..]);
    }
  }

  /** The turns taken on a list of links, each named by one of its ends. */
  function NetworkTurns(wires: map<Place, Place>, es: seq<Event>, links: seq<Place>): nat
    requires forall p :: p in links ==> p in wires
  {
    if links == [] then 0
    else Turns(es, links[0]) + Turns(es, wires[links[0]]) + NetworkTurns(wires, es, links[1..])
  }

  function NetworkPotential(w: World, links: seq<Place>): nat
    requires forall p :: p in links ==> p in w.wires
  {
    if links == [] then 0
    else Q.Potential(LinkAt(w, links[0], w.wires[links[0]])) + NetworkPotential(w, links[1..])
  }

  /** The heartbeats broadcast to the two ends of each link. */
  function NetworkHeartbeats(w: World, links: seq<Place>): nat
    requires forall p :: p in links ==> p in w.wires
  {
    if links == [] then 0
    else
      Heartbeats(w, links[0].node) + Heartbeats(w, w.wires[links[0]].node)
      + NetworkHeartbeats(w, links[1..])
  }

  /** Networks fall quiet: from the start, over any run, the turns taken on any set of links and
      those still owed are at most thirty per link and twelve per heartbeat at either end. */
  lemma {:induction false} NetworkQuiesces(w: World, es: seq<Event>, links: seq<Place>)
    requires Booted(w) && Run(w, es).Some? && forall p :: p in links ==> p in w.wires
    ensures var v := Run(w, es).value;
            && v.wires == w.wires
            && NetworkTurns(w.wires, es, links) + NetworkPotential(v, links)
               <= 30 * |links| + 12 * NetworkHeartbeats(v, links)
    decreases |links|
  {
    WiresFixed(w, es);
    if links != [] {
      NetworkQuiesces(w, es, links[1..]);
      BootInv(w);
      PairTurnsBounded(w, es, links[0]);
      BootPotential(w, links[0]);
      BootPotential(w, w.wires[links[0]]);
    }
  }

  // ---------------------------------------------------------------- the handshake gets through

  /** The turn of a link's end as a step of the network. */
  function Lift(e: L.Event, p: Place, q: Place): Event
    requires e.Act?
  {
    var at := if e.side.Left? then p else q;
    On(at.node, N.Turn(at.task, e.turn))
  }

  function LiftAll(es: seq<L.Event>, p: Place, q: Place): seq<Event>
    requires forall e :: e in es ==> e.Act?
  {
    if es == [] then [] else [Lift(es[0], p, q)] + LiftAll(es[1..], p, q)
  }

  /** Both ends are spawned and past their registration. */
  predicate Registered(w: World, p: Place, q: Place) {
    && Spawned(w, p) && !EndAt(w, p).conn.phase.Opening?
    && Spawned(w, q) && !EndAt(w, q).conn.phase.Opening?
  }

  lemma LiftEnabled(w: World, t: C.Event, p: Place)
    requires p in w.wires && Spawned(w, p) && !EndAt(w, p).conn.phase.Opening?
    requires C.Enabled(EndAt(w, p).conn, t, EndAt(w, p).channel)
    requires t.Read? && t.item.Data? ==>
               var u := L.Unread(EndAt(w, p).conn, EndAt(w, w.wires[p]).conn); u != [] && t.item.frame == u[0]
    ensures Enabled(w, On(p.node, N.Turn(p.task, t)))
  {
  }

  lemma NeverReopens(c: C.Conn, t: C.Event, ch: C.Broadcast)
    requires C.Enabled(c, t, ch)
    ensures !C.Next(c, t, ch).phase.Opening?
  {
  }

  lemma TurnKeepsRegistered(w: World, t: C.Event, p: Place, q: Place)
    requires Spawned(w, p) && Enabled(w, On(p.node, N.Turn(p.task, t)))
    requires Spawned(w, q) && !EndAt(w, q).conn.phase.Opening?
    ensures var next := Next(w, On(p.node, N.Turn(p.task, t)));
            Spawned(next, q) && !EndAt(next, q).conn.phase.Opening?
  {
    var next := Next(w, On(p.node, N.Turn(p.task, t)));
    if p == q {
      NeverReopens(EndAt(w, p).conn, t, EndAt(w, p).channel);
      assert EndAt(next, p).conn == C.Next(EndAt(w, p).conn, t, EndAt(w, p).channel);
    } else {
      assert EndAt(next, q) == EndAt(w, q);
    }
  }

  lemma LiftLink(w: World, e: L.Event, p: Place, q: Place)
    requires Paired(w.wires) && p in w.wires && w.wires[p] == q && Spawned(w, p) && Spawned(w, q)
    requires N.BeatInv(w.nodes[p.node]) && N.BeatInv(w.nodes[q.node])
    requires e.Act? && L.Enabled(LinkAt(w, p, q), e) && Enabled(w, Lift(e, p, q))
    ensures LinkAt(Next(w, Lift(e, p, q)), p, q) == L.Next(LinkAt(w, p, q), e)
  {
    LinkStep(w, Lift(e, p, q), p, q);
    assert Project(w, Lift(e, p, q), p, q) == [e];
    RunOne(LinkAt(w, p, q), e);
  }

  lemma LiftStep(w: World, e: L.Event, p: Place, q: Place)
    requires Paired(w.wires) && p in w.wires && w.wires[p] == q && Registered(w, p, q)
    requires N.BeatInv(w.nodes[p.node]) && N.BeatInv(w.nodes[q.node])
    requires e.Act? && L.Enabled(LinkAt(w, p, q), e)
    ensures Enabled(w, Lift(e, p, q))
    ensures var next := Next(w, Lift(e, p, q));
            Registered(next, p, q) && LinkAt(next, p, q) == L.Next(LinkAt(w, p, q), e)
  {
    var at := if e.side.Left? then p else q;
    LiftEnabled(w, e.turn, at);
    TurnKeepsRegistered(w, e.turn, at, p);
    TurnKeepsRegistered(w, e.turn, at, q);
    LiftLink(w, e, p, q);
  }

  lemma {:induction false} LiftRun(w: World, es: seq<L.Event>, p: Place, q: Place)
    requires Inv(w) && p in w.wires && w.wires[p] == q && Registered(w, p, q)
    requires L.Run(LinkAt(w, p, q), es).Some? && forall e :: e in es ==> e.Act?
    ensures var run := Run(w, LiftAll(es, p, q));
            run.Some? && LinkAt(run.value, p, q) == L.Run(LinkAt(w, p, q), es).value
    decreases |es|
  {
    if es != [] {
      assert N.Inv(w.nodes[p.node]) && N.Inv(w.nodes[q.node]);
      LiftStep(w, es[0], p, q);
      InvStep(w, Lift(es[0], p, q));
      LiftRun(Next(w, Lift(es[0], p, q)), es[1..], p, q);
      assert LiftAll(es, p, q)[1..] == LiftAll(es[1..], p, q);
    }
  }

  /** A turn of the task at `p` that is no failed send, refusal or end of the stream. */
  predicate MovesWell(e: Event, p: Place) {
    e.node == p.node && e.event.Turn? && e.event.id == p.task && Q.Normal(e.event.turn)
  }

  lemma {:induction false} LiftMoves(es: seq<L.Event>, p: Place, q: Place)
    requires forall e :: e in es ==> e.Act? && Q.Normal(e.turn)
    ensures |LiftAll(es, p, q)| == |es|
    ensures forall e :: e in LiftAll(es, p, q) ==> MovesWell(e, p) || MovesWell(e, q)
    decreases |es|
  {
    if es != [] {
      LiftMoves(es[1..], p, q);
    }
  }

  /** The end greeted before it entered its select, and its queue has room. */
  predicate Ready(end: L.End) {
    end.conn.inbox.maxPending >= 1 && (end.conn.phase.Running? ==> end.conn.heloSent)
  }

  lemma LinkCompletes(w: World, p: Place, q: Place) returns (more: seq<Event>)
    requires Inv(w) && p in w.wires && w.wires[p] == q && Registered(w, p, q)
    requires K.Healthy(LinkAt(w, p, q))
    ensures Run(w, more).Some? && |more| <= Q.Potential(LinkAt(w, p, q))
    ensures forall e :: e in more ==> MovesWell(e, p) || MovesWell(e, q)
    ensures var l := LinkAt(Run(w, more).value, p, q);
            && Q.Settled(l.left.conn, l.right.conn) && Q.Settled(l.right.conn, l.left.conn)
            && K.Acquainted(l.left.conn, l.right.conn) && K.Acquainted(l.right.conn, l.left.conn)
  {
    var acts := K.Completes(LinkAt(w, p, q));
    LiftRun(w, acts, p, q);
    LiftMoves(acts, p, q);
    more := LiftAll(acts, p, q);
  }

  /** In any network, wherever a run has got to, two registered tasks that have not closed and
      have not failed to greet can complete their handshake by turns of their own, none of them a
      failure and no more than their link's potential, and are then both settled: they wait for
      nobody else. */
  lemma NetworkHandshakeCanComplete(w: World, es: seq<Event>, p: Place) returns (more: seq<Event>)
    requires Booted(w) && Run(w, es).Some? && p in w.wires
    requires var v, q := Run(w, es).value, w.wires[p];
             Registered(v, p, q) && K.Open(LinkAt(v, p, q)) && Ready(EndAt(v, p)) && Ready(EndAt(v, q))
    ensures Run(Run(w, es).value, more).Some?
    ensures |more| <= Q.Potential(LinkAt(Run(w, es).value, p, w.wires[p]))
    ensures forall e :: e in more ==> MovesWell(e, p) || MovesWell(e, w.wires[p])
    ensures var l := LinkAt(Run(Run(w, es).value, more).value, p, w.wires[p]);
            && Q.Settled(l.left.conn, l.right.conn) && Q.Settled(l.right.conn, l.left.conn)
            && K.Acquainted(l.left.conn, l.right.conn) && K.Acquainted(l.right.conn, l.left.conn)
  {
    BootInv(w);
    RunInv(w, es);
    WiresFixed(w, es);
    assert Honest(LinkAt(Run(w, es).value, p, w.wires[p]));
    more := LinkCompletes(Run(w, es).value, p, w.wires[p]);
  }
}
