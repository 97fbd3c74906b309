/** What holds in every run of a node. */
module NodeProperties {
  import opened Wrappers
  import opened Protocol
  import opened Sequences
  import opened ConnectionManagement
  import opened Node
  import C = Connection
  import T = HeartbeatTimer

  // ---------------------------------------------------------------- runs, from their end

  lemma {:induction false} RunJoin(n: Node, es: seq<Event>, more: seq<Event>)
    requires Run(n, es).Some?
    ensures Run(n, es + more) == Run(Run(n, es).value, more)
    decreases |es|
  {
    if es == [] {
      assert es + more == more;
    } else {
      assert (es + more)[1..] == es[1..] + more;
      RunJoin(Next(n, es[0]), es[1..], more);
    }
  }

  lemma {:induction false} RunPrefix(n: Node, es: seq<Event>, more: seq<Event>)
    requires Run(n, es + more).Some?
    ensures Run(n, es).Some?
    decreases |es|
  {
    if es != [] {
      assert (es + more)[1..] == es[1..] + more;
      RunPrefix(Next(n, es[0]), es[1..], more);
    }
  }

  /** The last step of a run. */
  lemma RunLast(n: Node, es: seq<Event>)
    requires es != [] && Run(n, es).Some?
    ensures var before := Run(n, es[..|es| - 1]);
            before.Some? && Enabled(before.value, es[|es| - 1])
            && Run(n, es) == Some(Next(before.value, es[|es| - 1]))
  {
    var es0, e := es[..|es| - 1], es[|es| - 1];
    assert es == es0 + [e];
    RunPrefix(n, es0, [e]);
    RunJoin(n, es0, [e]);
    assert [e][1..] == [];
  }

  // ---------------------------------------------------------------- one connection

  /** Every frame a connection's sink accepted is the greeting, a reply, or a broadcast, and
      the last two are interleaved without reordering; every frame its reader yielded is
      handled, in hand, queued, or the one that overflowed the queue. */
  lemma ConnectionTraffic(n: Node, i: nat)
    requires Reachable(n) && i < |n.tasks|
    ensures var c := n.tasks[i].conn;
            c.heloSent ==> c.sent != [] && c.sent[0] == HELO && IsMerge(c.sent[1..], c.answered, c.feed.forwarded)
    ensures var c := n.tasks[i].conn;
            exists inHand: seq<Frame>, partial: seq<Frame> ::
              && |inHand| <= 1 && |partial| <= |inHand| && (partial != [] ==> React(inHand[0]) == Answer(partial[0]))
              && c.answered == Replies(c.inbox.handled) + partial
              && C.FramesOf(c.inbox.items) == c.inbox.handled + inHand + c.inbox.queue + c.inbox.rejected
    ensures var b := n.tasks[i].conn.inbox;
            |b.queue| <= n.maxPending && |b.rejected| <= 1 && forall f :: f in b.handled ==> React(f) != Close
  {
    ReachableInv(n);
    assert TaskInv(n, i);
    var h := n.tasks[i].conn.handler;
    assert |C.InHand(h)| <= 1;
  }

  /** While a task is inside its select the queue's sender lives and the queue is open: a
      queue receive always matches, `try_send` never reports a closed channel, and the inner
      select always has a branch, so no task ever panics there. */
  lemma SelectNeverExhausted(n: Node, i: nat)
    requires Reachable(n) && i < |n.tasks|
    ensures var c := n.tasks[i].conn;
            && c.phase != C.Panicked
            && (c.phase.Running? ==> c.senderAlive && !c.closed && (c.handler.Selecting? ==> c.handler.queueOn))
            && (C.Over(c) ==> !c.senderAlive && c.closed)
  {
    ReachableInv(n);
    assert TaskInv(n, i);
  }

  /** A select ends only for a reason: the stream failed or ended, the queue was full when a
      frame arrived, a frame could not be parsed or answered, or a send was under way. */
  lemma ClosesOnlyForCause(n: Node, i: nat)
    requires Reachable(n) && i < |n.tasks| && C.Over(n.tasks[i].conn)
    ensures var c := n.tasks[i].conn;
            || (exists k :: 0 <= k < |c.inbox.items| && !c.inbox.items[k].Data?)
            || (c.inbox.rejected != [] && |c.inbox.queue| == n.maxPending)
            || (c.handler.Stopped? && React(c.handler.frame) == Close)
            || c.handler.Replying? || c.handler.Forwarding?
  {
    ReachableInv(n);
    assert TaskInv(n, i);
  }

  /** What a task delivers of the broadcast log: entries from its subscription on, each at most
      once and in order; anything it passed over had been overwritten; and nothing is passed
      over unless a receive reported lag. */
  lemma BroadcastsDelivered(n: Node, i: nat)
    requires Reachable(n) && i < |n.tasks|
    ensures var f, log := n.tasks[i].conn.feed, n.channel.log;
            && f.subscribed <= f.cursor <= |log| && |f.forwarded| == |f.delivered|
            && (forall k :: 0 <= k < |f.delivered| ==>
                  f.subscribed <= f.delivered[k] < |log| && f.forwarded[k] == log[f.delivered[k]])
            && (forall j, k :: 0 <= j < k < |f.delivered| ==> f.delivered[j] < f.delivered[k])
            && (forall k :: f.subscribed <= k < f.cursor ==>
                  || k in f.delivered || n.channel.Overwritten(k)
                  || (k == f.cursor - 1 && C.Held(n.tasks[i].conn.handler).Some?))
            && (!f.lagged ==> forall k :: 0 <= k < |f.delivered| ==> f.delivered[k] == f.subscribed + k)
  {
    ReachableInv(n);
    assert TaskInv(n, i);
    var c := n.tasks[i].conn;
    forall k | c.feed.subscribed <= k < c.feed.cursor
      ensures || k in c.feed.delivered || n.channel.Overwritten(k)
              || (k == c.feed.cursor - 1 && C.Held(c.handler).Some?)
    {
      assert C.Accounted(c.feed, C.Held(c.handler).Some?, n.channel, k);
    }
  }

  /** A task's address and subscription point never change. */
  lemma {:induction false} SubscriptionFixed(n: Node, es: seq<Event>, i: nat)
    requires i < |n.tasks| && Run(n, es).Some?
    ensures var m := Run(n, es).value;
            && i < |m.tasks| && m.tasks[i].addr == n.tasks[i].addr
            && m.tasks[i].conn.feed.subscribed == n.tasks[i].conn.feed.subscribed
    decreases |es|
  {
    if es != [] {
      if es[0].Turn? && es[0].id == i {
        C.NextKeepsSubscription(n.tasks[i].conn, es[0].turn, n.channel);
      }
      SubscriptionFixed(Next(n, es[0]), es[1..], i);
    }
  }

  /** A task never forwards anything published before it was spawned. */
  lemma NothingFromBefore(n: Node, addr: SocketAddr, es: seq<Event>)
    requires Inv(n) && Enabled(n, Spawn(addr)) && Run(Next(n, Spawn(addr)), es).Some?
    ensures var m := Run(Next(n, Spawn(addr)), es).value;
            && |n.tasks| < |m.tasks| && m.tasks[|n.tasks|].addr == addr
            && forall k :: k in m.tasks[|n.tasks|].conn.feed.delivered ==> k >= |n.channel.log|
  {
    var next := Next(n, Spawn(addr));
    StepRun(n, [Spawn(addr)]);
    RunInv(next, es);
    SubscriptionFixed(next, es, |n.tasks|);
    assert TaskInv(Run(next, es).value, |n.tasks|);
  }

  /** A run in which task `i` is never more than a window behind the broadcast log. */
  ghost predicate KeepsUp(n: Node, es: seq<Event>, i: nat)
    decreases |es|
  {
    && (i < |n.tasks| ==> !n.channel.Overwritten(n.tasks[i].conn.feed.cursor))
    && (es != [] && Enabled(n, es[0]) ==> KeepsUp(Next(n, es[0]), es[1..], i))
  }

  /** A task that keeps within the window never reports lag, so (by BroadcastsDelivered) it
      delivers a gapless stretch of the log. */
  lemma {:induction false} KeepingUpNeverLags(n: Node, es: seq<Event>, i: nat)
    requires KeepsUp(n, es, i) && Run(n, es).Some?
    requires i < |n.tasks| ==> !n.tasks[i].conn.feed.lagged
    ensures var m := Run(n, es).value; i < |m.tasks| ==> !m.tasks[i].conn.feed.lagged
    decreases |es|
  {
    if es != [] {
      LagStep(n, es[0], i);
      KeepingUpNeverLags(Next(n, es[0]), es[1..], i);
    }
  }

  lemma LagStep(n: Node, e: Event, i: nat)
    requires Enabled(n, e)
    requires i < |n.tasks| ==> !n.channel.Overwritten(n.tasks[i].conn.feed.cursor)
    requires i < |n.tasks| ==> !n.tasks[i].conn.feed.lagged
    ensures var m := Next(n, e); i < |m.tasks| ==> !m.tasks[i].conn.feed.lagged
  {
  }

  lemma StepRun(n: Node, es: seq<Event>)
    requires es != [] && Enabled(n, es[0]) && Inv(n)
    ensures Inv(Next(n, es[0])) && Run(n, es) == Run(Next(n, es[0]), es[1..])
  {
    NextTasks(n, es[0]);
    NextRegistry(n, es[0]);
    NextBeat(n, es[0]);
  }

  /** The task waits with its broadcast branch disabled, or is past its select. */
  ghost predicate Deaf(c: C.Conn) {
    (c.phase.Running? && c.handler.Selecting? && !c.handler.broadcastOn) || !C.HoldsReceiver(c)
  }

  /** A lagged receive costs more than the overwritten entries: until the peer itself sends a
      frame that is taken from the queue, the task forwards no broadcast at all, however many
      are published. */
  lemma {:induction false} DeafUntilPeerSpeaks(n: Node, es: seq<Event>, i: nat)
    requires i < |n.tasks| && Deaf(n.tasks[i].conn) && Run(n, es).Some?
    requires Turn(i, C.TakeQueue) !in es
    ensures var m := Run(n, es).value;
            i < |m.tasks| && Deaf(m.tasks[i].conn)
            && m.tasks[i].conn.feed == n.tasks[i].conn.feed && m.tasks[i].conn.sent == n.tasks[i].conn.sent
    decreases |es|
  {
    if es != [] {
      DeafStep(n, es[0], i);
      DeafUntilPeerSpeaks(Next(n, es[0]), es[1..], i);
    }
  }

  lemma DeafStep(n: Node, e: Event, i: nat)
    requires i < |n.tasks| && Deaf(n.tasks[i].conn) && Enabled(n, e) && e != Turn(i, C.TakeQueue)
    ensures var m := Next(n, e);
            i < |m.tasks| && Deaf(m.tasks[i].conn)
            && m.tasks[i].conn.feed == n.tasks[i].conn.feed && m.tasks[i].conn.sent == n.tasks[i].conn.sent
  {
    if e.Turn? && e.id == i {
      DeafTurn(n.tasks[i].conn, e.turn, n.channel);
    }
  }

  lemma DeafTurn(c: C.Conn, t: C.Event, ch: C.Broadcast)
    requires Deaf(c) && C.Enabled(c, t, ch) && t != C.TakeQueue
    ensures var next := C.Next(c, t, ch); Deaf(next) && next.feed == c.feed && next.sent == c.sent
  {
  }

  /** The task waits with its broadcast branch enabled. */
  ghost predicate Listening(c: C.Conn) {
    c.phase.Running? && c.handler.Selecting? && c.handler.broadcastOn
  }

  /** A frame from the peer restores the broadcast branch: at once if it calls for no reply, and
      if it is answered once the reply is sent. Only a frame that cannot be handled does not. */
  lemma PeerSpeaks(n: Node, i: nat)
    requires Enabled(n, Turn(i, C.TakeQueue)) && n.tasks[i].conn.inbox.queue != []
    ensures var r, m := React(n.tasks[i].conn.inbox.queue[0]), Next(n, Turn(i, C.TakeQueue));
            && (r.Silent? ==> Listening(m.tasks[i].conn))
            && (r.Answer? ==>
                  var replied := Run(m, [Turn(i, C.SinkAccept), Turn(i, C.SinkDone)]);
                  replied.Some? && i < |replied.value.tasks| && Listening(replied.value.tasks[i].conn))
            && (r.Close? ==> Deaf(m.tasks[i].conn))
  {
    var c := n.tasks[i].conn;
    SpokenTo(c, n.channel);
    if React(c.inbox.queue[0]).Answer? {
      var m := Next(n, Turn(i, C.TakeQueue));
      assert m.tasks[i].conn == C.Next(c, C.TakeQueue, n.channel) && m.channel == n.channel;
      assert Next(m, Turn(i, C.SinkAccept)).tasks[i].conn == C.Next(m.tasks[i].conn, C.SinkAccept, n.channel);
      RunTwo(m, Turn(i, C.SinkAccept), Turn(i, C.SinkDone));
    }
  }

  lemma SpokenTo(c: C.Conn, ch: C.Broadcast)
    requires C.Enabled(c, C.TakeQueue, ch) && c.inbox.queue != []
    ensures var r, d := React(c.inbox.queue[0]), C.Next(c, C.TakeQueue, ch);
            && (r.Silent? ==> Listening(d)) && (r.Close? ==> Deaf(d))
            && (r.Answer? ==>
                  && C.Enabled(d, C.SinkAccept, ch) && C.Enabled(C.Next(d, C.SinkAccept, ch), C.SinkDone, ch)
                  && Listening(C.Next(C.Next(d, C.SinkAccept, ch), C.SinkDone, ch)))
  {
  }

  lemma RunTwo(n: Node, e: Event, f: Event)
    requires Enabled(n, e) && Enabled(Next(n, e), f)
    ensures Run(n, [e, f]) == Some(Next(Next(n, e), f))
  {
    assert [e, f][1..] == [f] && [f][1..] == [];
    assert Run(Next(n, e), [f]) == Run(Next(Next(n, e), f), []);
  }

  /** A lagged receive makes the task deaf, and leaves it connected. */
  lemma LagDeafens(n: Node, i: nat)
    requires Inv(n) && Enabled(n, Turn(i, C.TakeBroadcast))
    requires n.channel.Overwritten(n.tasks[i].conn.feed.cursor)
    ensures var c := Next(n, Turn(i, C.TakeBroadcast)).tasks[i].conn;
            && Deaf(c) && c.phase.Running? && c.handler == C.Selecting(true, false)
            && c.feed.lagged && c.feed.forwarded == n.tasks[i].conn.feed.forwarded
  {
    assert TaskInv(n, i);
  }

  // ---------------------------------------------------------------- the registry

  /** The registry is never over capacity and lists no address without a live connection. */
  lemma RegisteredAreLive(n: Node)
    requires Reachable(n)
    ensures |n.registry| <= n.capacity
    ensures forall a :: a in n.registry ==> LiveAt(n, a)
  {
    ReachableInv(n);
  }

  ghost function LiveIds(n: Node): set<nat> {
    set i: nat | i < |n.tasks| && C.Live(n.tasks[i].conn)
  }

  function Addrs(n: Node): seq<SocketAddr> {
    seq(|n.tasks|, i requires 0 <= i < |n.tasks| => n.tasks[i].addr)
  }

  /** The tasks `live` and the registry's entries correspond one to one. */
  ghost predicate OneToOne(live: set<nat>, addrs: seq<SocketAddr>, m: Registry) {
    && (forall i :: i in live ==> i < |addrs| && addrs[i] in m)
    && (forall i, j :: i in live && j in live && addrs[i] == addrs[j] ==> i == j)
    && |live| == |m|
  }

  ghost predicate Matched(n: Node) {
    OneToOne(LiveIds(n), Addrs(n), n.registry)
  }

  lemma OneToOneAdd(live: set<nat>, addrs: seq<SocketAddr>, m: Registry, i: nat, s: Metadata)
    requires OneToOne(live, addrs, m) && i < |addrs| && i !in live
    ensures OneToOne(live + {i}, addrs, m[addrs[i] := s]) <==> addrs[i] !in m
    ensures addrs[i] in m ==> |live + {i}| == |m[addrs[i] := s]| + 1
  {
    assert m[addrs[i] := s].Keys == m.Keys + {addrs[i]};
    assert |m[addrs[i] := s]| == |m| + (if addrs[i] in m then 0 else 1);
  }

  lemma OneToOneRemove(live: set<nat>, addrs: seq<SocketAddr>, m: Registry, i: nat)
    requires OneToOne(live, addrs, m) && i in live
    ensures OneToOne(live - {i}, addrs, m - {addrs[i]})
  {
    assert (m - {addrs[i]}).Keys == m.Keys - {addrs[i]};
    assert |m - {addrs[i]}| == |m| - 1;
  }

  /** The check a task could make before registering: its address is not yet present. */
  ghost predicate Unregistered(n: Node, e: Event)
    requires Enabled(n, e)
  {
    e.Turn? && e.turn == C.Register ==> n.tasks[e.id].addr !in n.registry
  }

  lemma LiveStep(n: Node, e: Event, j: nat)
    requires Enabled(n, e) && j < |n.tasks| && C.PhaseInv(n.tasks[j].conn)
    ensures var next := Next(n, e);
            && j < |next.tasks|
            && (C.Live(next.tasks[j].conn) <==>
                  || e == Turn(j, C.Register)
                  || (C.Live(n.tasks[j].conn) && e != Turn(j, C.Unregister)))
  {
    if e.Turn? && e.id == j {
      TurnLive(n.tasks[j].conn, e.turn, n.channel);
    }
  }

  lemma LiveIdsStep(n: Node, e: Event)
    requires Inv(n) && Enabled(n, e)
    ensures LiveIds(Next(n, e)) ==
            if e.Turn? && e.turn == C.Register then LiveIds(n) + {e.id}
            else if e.Turn? && e.turn == C.Unregister then LiveIds(n) - {e.id}
            else LiveIds(n)
  {
    forall j: nat ensures j in LiveIds(Next(n, e)) <==>
      || e == Turn(j, C.Register)
      || (j in LiveIds(n) && e != Turn(j, C.Unregister))
    {
      if j < |n.tasks| {
        assert TaskInv(n, j);
        LiveStep(n, e, j);
      }
    }
  }

  lemma OneToOneExtend(live: set<nat>, addrs: seq<SocketAddr>, more: seq<SocketAddr>, m: Registry)
    requires OneToOne(live, addrs, m) && addrs <= more
    ensures OneToOne(live, more, m)
  {
  }

  lemma AddrsStep(n: Node, e: Event)
    requires Enabled(n, e)
    ensures Addrs(n) <= Addrs(Next(n, e)) && (e.Turn? ==> Addrs(Next(n, e)) == Addrs(n))
  {
  }

  lemma RegisterMatched(n: Node, i: nat)
    requires Inv(n) && Matched(n) && Enabled(n, Turn(i, C.Register))
    ensures var m, a := Next(n, Turn(i, C.Register)), n.tasks[i].addr;
            && (Matched(m) <==> a !in n.registry)
            && (a in n.registry ==> |LiveIds(m)| == |m.registry| + 1)
  {
    LiveIdsStep(n, Turn(i, C.Register));
    AddrsStep(n, Turn(i, C.Register));
    OneToOneAdd(LiveIds(n), Addrs(n), n.registry, i, Metadata(n.timer.now));
    var m := Next(n, Turn(i, C.Register));
    assert m.registry == n.registry[Addrs(n)[i] := Metadata(n.timer.now)];
  }

  lemma UnregisterMatched(n: Node, i: nat)
    requires Inv(n) && Matched(n) && Enabled(n, Turn(i, C.Unregister))
    ensures Matched(Next(n, Turn(i, C.Unregister)))
  {
    LiveIdsStep(n, Turn(i, C.Unregister));
    AddrsStep(n, Turn(i, C.Unregister));
    OneToOneRemove(LiveIds(n), Addrs(n), n.registry, i);
  }

  lemma OtherMatched(n: Node, e: Event)
    requires Inv(n) && Matched(n) && Enabled(n, e)
    requires !(e.Turn? && (e.turn == C.Register || e.turn == C.Unregister))
    ensures Matched(Next(n, e))
  {
    LiveIdsStep(n, e);
    AddrsStep(n, e);
    OneToOneExtend(LiveIds(n), Addrs(n), Addrs(Next(n, e)), n.registry);
  }

  /** Registering keeps the correspondence exactly when the address was not present: an insert
      over an existing entry leaves more live connections than entries. */
  lemma MatchedStep(n: Node, e: Event)
    requires Inv(n) && Matched(n) && Enabled(n, e)
    ensures Matched(Next(n, e)) <==> Unregistered(n, e)
    ensures !Unregistered(n, e) ==> |LiveIds(Next(n, e))| == |Next(n, e).registry| + 1
  {
    if e.Turn? && e.turn == C.Register {
      RegisterMatched(n, e.id);
    } else if e.Turn? && e.turn == C.Unregister {
      UnregisterMatched(n, e.id);
    } else {
      OtherMatched(n, e);
    }
  }

  ghost predicate CheckedRun(n: Node, es: seq<Event>)
    decreases |es|
  {
    es != [] && Enabled(n, es[0]) ==> Unregistered(n, es[0]) && CheckedRun(Next(n, es[0]), es[1..])
  }

  /** Every state of the run is matched. */
  ghost predicate AlwaysMatched(n: Node, es: seq<Event>)
    decreases |es|
  {
    Matched(n) && (es != [] && Enabled(n, es[0]) ==> AlwaysMatched(Next(n, es[0]), es[1..]))
  }

  /** Over whole runs: entries and live connections stay one to one throughout exactly when no
      task ever registers an address already present. */
  lemma {:induction false} AlwaysMatchedIff(n: Node, es: seq<Event>)
    requires Inv(n) && Matched(n) && Run(n, es).Some?
    ensures AlwaysMatched(n, es) <==> CheckedRun(n, es)
    decreases |es|
  {
    if es != [] {
      MatchedStep(n, es[0]);
      StepRun(n, es);
      if Matched(Next(n, es[0])) {
        AlwaysMatchedIff(Next(n, es[0]), es[1..]);
      } else {
        NotAlwaysMatched(Next(n, es[0]), es[1..]);
      }
    }
  }

  lemma NotAlwaysMatched(n: Node, es: seq<Event>)
    requires !Matched(n)
    ensures !AlwaysMatched(n, es)
  {
  }

  /** With room for one peer at most, an insert succeeds only on an empty registry. */
  lemma {:induction false} SmallCapacityChecked(n: Node, es: seq<Event>)
    requires n.capacity <= 1
    ensures CheckedRun(n, es)
    decreases |es|
  {
    if es != [] && Enabled(n, es[0]) {
      SmallCapacityChecked(Next(n, es[0]), es[1..]);
    }
  }

  /** So the capacity does bound the live connections of every run when it is at most one; with
      LiveUnbounded, exactly then. */
  lemma LiveWithinSmallCapacity(n: Node, es: seq<Event>)
    requires Inv(n) && Matched(n) && n.capacity <= 1 && Run(n, es).Some?
    ensures var m := Run(n, es).value; |LiveIds(m)| <= m.capacity == n.capacity
  {
    SmallCapacityChecked(n, es);
    LiveWithinCapacity(n, es);
    CapacityFixed(n, es);
  }

  lemma {:induction false} CapacityFixed(n: Node, es: seq<Event>)
    requires Run(n, es).Some?
    ensures Run(n, es).value.capacity == n.capacity
    decreases |es|
  {
    if es != [] {
      CapacityFixed(Next(n, es[0]), es[1..]);
    }
  }

  /** In a run where no task registers an address already present, the registered addresses
      are exactly those of the live connections, and these never exceed the capacity. */
  lemma {:induction false} LiveWithinCapacity(n: Node, es: seq<Event>)
    requires Inv(n) && Matched(n) && CheckedRun(n, es) && Run(n, es).Some?
    ensures var m := Run(n, es).value;
            && |LiveIds(m)| == |m.registry| <= m.capacity
            && forall a :: a in m.registry <==> LiveAt(m, a)
    decreases |es|
  {
    if es == [] {
      forall a | LiveAt(n, a) ensures a in n.registry {
        var i :| 0 <= i < |n.tasks| && C.Live(n.tasks[i].conn) && n.tasks[i].addr == a;
        assert i in LiveIds(n) && Addrs(n)[i] == a;
      }
    } else {
      MatchedStep(n, es[0]);
      StepRun(n, es);
      LiveWithinCapacity(Next(n, es[0]), es[1..]);
    }
  }

  /** A freshly booted node is matched. */
  lemma BootMatched(capacity: nat, maxPending: nat, window: nat, period: nat, bind: SocketAddr, now: int)
    ensures var n := Boot(capacity, maxPending, window, period, bind, now);
            && Inv(n) && Matched(n)
            && n.capacity == capacity && n.maxPending == maxPending && n.registry == map[] && n.tasks == []
            && n.channel == C.Broadcast([], window, true)
            && n.timer == T.Timer(period, now, now, now, false, T.Waiting, [])
            && n.heartbeat == Encoded(Heartbeat(HeartbeatMessage(bind, now)))
  {
    var n := Boot(capacity, maxPending, window, period, bind, now);
    assert LiveIds(n) == {};
  }

  /** A run without a registration at `a` by a task of that address. */
  ghost predicate NoRegister(n: Node, es: seq<Event>, a: SocketAddr)
    decreases |es|
  {
    es != [] && Enabled(n, es[0]) ==>
      && !(es[0].Turn? && es[0].turn == C.Register && n.tasks[es[0].id].addr == a)
      && NoRegister(Next(n, es[0]), es[1..], a)
  }

  /** A task's last turn removes its address, and only a new registration of that same
      address brings it back. */
  lemma AbsentAfterUnregister(n: Node, i: nat, es: seq<Event>)
    requires Enabled(n, Turn(i, C.Unregister))
    requires var m := Next(n, Turn(i, C.Unregister)); NoRegister(m, es, n.tasks[i].addr) && Run(m, es).Some?
    ensures var m := Next(n, Turn(i, C.Unregister)); n.tasks[i].addr !in Run(m, es).value.registry
  {
    StaysAbsent(Next(n, Turn(i, C.Unregister)), es, n.tasks[i].addr);
  }

  lemma {:induction false} StaysAbsent(n: Node, es: seq<Event>, a: SocketAddr)
    requires a !in n.registry && NoRegister(n, es, a) && Run(n, es).Some?
    ensures a !in Run(n, es).value.registry
    decreases |es|
  {
    if es != [] {
      StaysAbsent(Next(n, es[0]), es[1..], a);
    }
  }

  // ---------------------------------------------------------------- heartbeats

  /** At most one heartbeat per elapsed period plus the first is ever published, so none of
      the node's connections forwards more than that. */
  lemma HeartbeatsBounded(n: Node)
    requires Reachable(n) && n.timer.period >= 1
    ensures |n.channel.log| <= (n.timer.now - n.timer.started) / n.timer.period + 1
    ensures forall f :: f in n.channel.log ==> f == n.heartbeat && IsHeartbeat(f)
    ensures forall i :: 0 <= i < |n.tasks| ==> |n.tasks[i].conn.feed.forwarded| <= |n.channel.log|
  {
    ReachableInv(n);
    T.SendsBounded(n.timer);
    forall i | 0 <= i < |n.tasks| ensures |n.tasks[i].conn.feed.forwarded| <= |n.channel.log| {
      assert TaskInv(n, i);
      var f := n.tasks[i].conn.feed;
      IncreasingLength(f.delivered, 0, |n.channel.log|);
    }
  }

  lemma {:induction false} IncreasingLength(s: seq<int>, lo: int, hi: int)
    requires lo <= hi
    requires forall i :: 0 <= i < |s| ==> lo <= s[i] < hi
    requires forall i, j :: 0 <= i < j < |s| ==> s[i] < s[j]
    ensures |s| <= hi - lo
    decreases |s|
  {
    if s != [] {
      IncreasingLength(s[..|s| - 1], lo, s[|s| - 1]);
    }
  }

  /** After any reset taken from the accept loop at most one heartbeat per period elapsed since
      is published, and none within a period of it. */
  lemma ResetQuietens(n: Node, k: nat)
    requires Reachable(n) && n.timer.period >= 1
    requires k < |n.timer.marks| && n.timer.marks[k].ResetAt?
    ensures var since := n.timer.now - n.timer.marks[k].time;
            && T.Sends(n.timer.marks[k + 1..]) <= since / n.timer.period
            && (since < n.timer.period ==> T.Sends(n.timer.marks[k + 1..]) == 0)
  {
    ReachableInv(n);
    T.SendsAfterReset(n.timer, k);
  }

  /** The timer's own events among those of a run. */
  function Beats(es: seq<Event>): seq<T.Event> {
    if es == [] then [] else (if es[0].Beat? then [es[0].beat] else []) + Beats(es[1..])
  }

  /** Where a run takes the timer depends on the timer's own events alone: the future that a
      handler builds and drops without polling it has no effect, and is no step here. */
  lemma {:induction false} TimerIgnoresTraffic(n: Node, es: seq<Event>)
    requires Run(n, es).Some?
    ensures T.Run(n.timer, Beats(es)) == Some(Run(n, es).value.timer)
    decreases |es|
  {
    if es != [] {
      TimerIgnoresTraffic(Next(n, es[0]), es[1..]);
      if es[0].Beat? {
        assert ([es[0].beat] + Beats(es[1..]))[1..] == Beats(es[1..]);
      } else {
        assert Beats(es) == Beats(es[1..]);
      }
    }
  }

  /** Only the accept loop puts the heartbeat off: over any run, whatever the tasks handle, the
      processed resets never exceed its notifications and the one stored before; so without
      either there is none, contrary to the comment on `start_heartbeat`. */
  lemma ResetsComeFromAccepts(n: Node, es: seq<Event>)
    requires Run(n, es).Some?
    ensures T.Resets(Beats(es)) + (if Run(n, es).value.timer.permit then 1 else 0)
            <= T.Notifications(Beats(es)) + (if n.timer.permit then 1 else 0)
    ensures !n.timer.permit && Beat(T.NotifyOne) !in es ==> T.Resets(Beats(es)) == 0
  {
    TimerIgnoresTraffic(n, es);
    T.ResetsNeedNotifications(n.timer, Beats(es));
    if Beat(T.NotifyOne) !in es {
      NoNotifications(es);
    }
  }

  lemma {:induction false} NoNotifications(es: seq<Event>)
    requires Beat(T.NotifyOne) !in es
    ensures T.Notifications(Beats(es)) == 0
    decreases |es|
  {
    if es != [] {
      NoNotifications(es[1..]);
      if es[0].Beat? {
        assert es[0].beat != T.NotifyOne;
        assert ([es[0].beat] + Beats(es[1..]))[1..] == Beats(es[1..]);
      } else {
        assert Beats(es) == Beats(es[1..]);
      }
    }
  }

  /** The heartbeat task survives a publish exactly when some connection is not yet past its
      select; a registered connection still before that point is enough. */
  lemma HeartbeatSurvivesIff(n: Node, heard: bool)
    requires Reachable(n) && Enabled(n, Beat(T.Publish(heard)))
    ensures Next(n, Beat(T.Publish(heard))).timer.phase == T.Quit
            <==> forall i :: 0 <= i < |n.tasks| ==>
                   var p := n.tasks[i].conn.phase; !p.Opening? && !p.Greeting? && !p.Running?
    ensures Next(n, Beat(T.Publish(heard))).timer.phase == T.Quit ==>
              forall a :: a in n.registry ==>
                exists i :: 0 <= i < |n.tasks| && n.tasks[i].addr == a
                            && (n.tasks[i].conn.phase.Closing? || n.tasks[i].conn.phase.Unregistering?)
  {
    ReachableInv(n);
    if !heard {
      forall a | a in n.registry
        ensures exists i :: 0 <= i < |n.tasks| && n.tasks[i].addr == a
                  && (n.tasks[i].conn.phase.Closing? || n.tasks[i].conn.phase.Unregistering?)
      {
        assert LiveAt(n, a);
        var i :| 0 <= i < |n.tasks| && C.Live(n.tasks[i].conn) && n.tasks[i].addr == a;
        assert !C.HoldsReceiver(n.tasks[i].conn);
      }
    }
  }

  // ---------------------------------------------------------------- what fails

  lemma RunThen(n: Node, es: seq<Event>, e: Event)
    requires Run(n, es).Some? && Enabled(Run(n, es).value, e)
    ensures Run(n, es + [e]) == Some(Next(Run(n, es).value, e))
  {
    RunJoin(n, es, [e]);
    assert [e][1..] == [];
  }

  /** `n` is reached from `from` by some run. */
  ghost predicate Reaches(from: Node, n: Node) {
    exists es :: Run(from, es) == Some(n)
  }

  lemma ReachesNext(from: Node, n: Node, e: Event)
    requires Reaches(from, n) && Enabled(n, e)
    ensures Reaches(from, Next(n, e))
  {
    var es :| Run(from, es) == Some(n);
    RunThen(from, es, e);
    assert Run(from, es + [e]) == Some(Next(n, e));
  }

  /** One connection, in cleanup and still registered. */
  ghost predicate Lingering(n: Node, a: SocketAddr) {
    && |n.tasks| == 1 && n.tasks[0].addr == a && n.tasks[0].conn.phase.Closing?
    && n.registry.Keys == {a}
    && n.timer.phase.Waiting? && n.timer.deadline <= n.timer.now
  }

  /** One connection, registered, greeted and in its select. */
  ghost predicate Sole(n: Node, a: SocketAddr) {
    && |n.tasks| == 1 && n.tasks[0].addr == a && n.tasks[0].conn.phase.Running? && n.tasks[0].conn.heloSent
    && n.registry.Keys == {a}
    && n.timer.phase.Waiting? && n.timer.deadline <= n.timer.now
  }

  /** One connection in its select, `k` heartbeats behind the broadcast log. */
  ghost predicate Behind(n: Node, a: SocketAddr, k: nat) {
    && Sole(n, a) && n.tasks[0].conn.handler == C.FRESH
    && n.tasks[0].conn.feed.cursor + k == |n.channel.log| && n.tasks[0].conn.feed.forwarded == []
  }

  /** One connection, registered and about to greet. */
  ghost predicate Entering(n: Node, a: SocketAddr) {
    && |n.tasks| == 1 && n.tasks[0].addr == a && n.registry.Keys == {a}
    && n.timer.phase.Waiting? && n.timer.deadline <= n.timer.now
    && var c := n.tasks[0].conn;
       c.phase.Greeting? && c.handler == C.FRESH && !c.heloSent
       && c.feed.cursor == |n.channel.log| && c.feed.forwarded == []
  }

  lemma ReachesEntering(boot: Node, a: SocketAddr) returns (n: Node)
    requires boot.tasks == [] && boot.registry == map[] && boot.capacity >= 1
    requires boot.channel.open && boot.timer.phase.Waiting? && boot.timer.deadline <= boot.timer.now
    ensures Reaches(boot, n) && Entering(n, a) && n.channel == boot.channel
  {
    assert Run(boot, []) == Some(boot);
    ReachesNext(boot, boot, Spawn(a));
    n := Next(boot, Spawn(a));
    ReachesNext(boot, n, Turn(0, C.Register));
    n := Next(n, Turn(0, C.Register));
  }

  lemma ReachesSole(boot: Node, a: SocketAddr) returns (n: Node)
    requires boot.tasks == [] && boot.registry == map[] && boot.capacity >= 1
    requires boot.channel.open && boot.timer.phase.Waiting? && boot.timer.deadline <= boot.timer.now
    ensures Reaches(boot, n) && Sole(n, a)
    ensures Behind(n, a, 0) && n.channel == boot.channel
  {
    n := ReachesEntering(boot, a);
    ReachesNext(boot, n, Turn(0, C.GreetAccept));
    n := Next(n, Turn(0, C.GreetAccept));
    ReachesNext(boot, n, Turn(0, C.GreetDone));
    n := Next(n, Turn(0, C.GreetDone));
  }

  lemma SoleLingers(n: Node, a: SocketAddr)
    requires Sole(n, a)
    ensures Enabled(n, Turn(0, C.Read(C.Eof))) && Lingering(Next(n, Turn(0, C.Read(C.Eof))), a)
  {
  }

  lemma LingeringKills(n: Node, a: SocketAddr)
    requires Lingering(n, a)
    ensures Enabled(n, Beat(T.Tick(true)))
    ensures var m := Next(n, Beat(T.Tick(true)));
            Enabled(m, Beat(T.Publish(false))) && Next(m, Beat(T.Publish(false))).timer.phase == T.Quit
  {
    assert |n.registry| == |n.registry.Keys|;
  }

  /** One peer suffices to kill the heartbeat, on every configuration that admits a peer: it
      connects, closes, and the tick falls while its task is in cleanup, still registered. */
  lemma HeartbeatCanQuit(boot: Node, a: SocketAddr) returns (dead: Node)
    requires boot.tasks == [] && boot.registry == map[] && boot.capacity >= 1
    requires boot.channel.open && boot.timer.phase.Waiting? && boot.timer.deadline <= boot.timer.now
    ensures Reaches(boot, dead) && dead.timer.phase == T.Quit
    ensures a in dead.registry && LiveAt(dead, a)
  {
    var sole := ReachesSole(boot, a);
    SoleLingers(sole, a);
    ReachesNext(boot, sole, Turn(0, C.Read(C.Eof)));
    var n := Next(sole, Turn(0, C.Read(C.Eof)));
    LingeringKills(n, a);
    ReachesNext(boot, n, Beat(T.Tick(true)));
    var m := Next(n, Beat(T.Tick(true)));
    ReachesNext(boot, m, Beat(T.Publish(false)));
    dead := Next(m, Beat(T.Publish(false)));
    assert C.Live(dead.tasks[0].conn);
  }

  /** A period passes and the heartbeat fires before the task is scheduled. */
  lemma FallsFurther(boot: Node, n: Node, a: SocketAddr, k: nat) returns (m: Node)
    requires Reaches(boot, n) && Behind(n, a, k)
    ensures Reaches(boot, m) && Behind(m, a, k + 1) && m.channel.window == n.channel.window
  {
    var elapse, tick, publish := Beat(T.Elapse(n.timer.period)), Beat(T.Tick(true)), Beat(T.Publish(true));
    ReachesNext(boot, n, elapse);
    var late := Next(n, elapse);
    assert |late.registry| == |late.registry.Keys|;
    ReachesNext(boot, late, tick);
    var due := Next(late, tick);
    assert C.HoldsReceiver(due.tasks[0].conn);
    ReachesNext(boot, due, publish);
    m := Next(due, publish);
  }

  lemma {:induction false} FallsBehind(boot: Node, a: SocketAddr, k: nat) returns (n: Node)
    requires boot.tasks == [] && boot.registry == map[] && boot.capacity >= 1
    requires boot.channel.open && boot.timer.phase.Waiting? && boot.timer.deadline <= boot.timer.now
    ensures Reaches(boot, n) && Behind(n, a, k) && n.channel.window == boot.channel.window
  {
    if k == 0 {
      n := ReachesSole(boot, a);
    } else {
      var before := FallsBehind(boot, a, k - 1);
      n := FallsFurther(boot, before, a, k - 1);
    }
  }

  /** It does happen, whatever the window: a task not scheduled for one heartbeat more than the
      window holds reports lag when it is, and is deaf while still connected. */
  lemma LagHappens(boot: Node, a: SocketAddr) returns (n: Node)
    requires boot.tasks == [] && boot.registry == map[] && boot.capacity >= 1
    requires boot.channel.open && boot.timer.phase.Waiting? && boot.timer.deadline <= boot.timer.now
    ensures Reaches(boot, n) && |n.tasks| == 1 && n.tasks[0].addr == a && a in n.registry
    ensures var c := n.tasks[0].conn;
            c.phase.Running? && c.heloSent && c.feed.lagged && c.feed.forwarded == [] && Deaf(c)
  {
    var behind := FallsBehind(boot, a, boot.channel.window + 1);
    LagTurn(behind.tasks[0].conn, behind.channel);
    ReachesNext(boot, behind, Turn(0, C.TakeBroadcast));
    n := Next(behind, Turn(0, C.TakeBroadcast));
    assert n.tasks[0].conn == C.Next(behind.tasks[0].conn, C.TakeBroadcast, behind.channel);
    assert n.registry == behind.registry;
  }

  lemma LagTurn(c: C.Conn, ch: C.Broadcast)
    requires c.phase.Running? && c.handler == C.FRESH && ch.Overwritten(c.feed.cursor)
    ensures C.Enabled(c, C.TakeBroadcast, ch)
    ensures var d := C.Next(c, C.TakeBroadcast, ch);
            && d.phase.Running? && d.heloSent == c.heloSent && Deaf(d)
            && d.feed == c.feed.(cursor := |ch.log| - ch.window, lagged := true)
  {
  }

  /** `k` tasks, all registered under the one address `a` and all live. */
  ghost predicate Crowd(n: Node, a: SocketAddr, k: nat) {
    && |n.tasks| == k && n.channel.open && n.registry.Keys <= {a}
    && forall i :: 0 <= i < k ==> n.tasks[i].addr == a && n.tasks[i].conn.phase.Greeting?
  }

  lemma CrowdGrows(n: Node, a: SocketAddr, k: nat)
    requires Crowd(n, a, k) && n.capacity >= 2
    ensures Enabled(n, Spawn(a)) && Enabled(Next(n, Spawn(a)), Turn(k, C.Register))
    ensures Crowd(Next(Next(n, Spawn(a)), Turn(k, C.Register)), a, k + 1)
  {
    AtMostOne(n.registry, a);
    var m := Next(Next(n, Spawn(a)), Turn(k, C.Register));
    assert m.registry.Keys <= {a};
  }

  lemma AtMostOne(m: Registry, a: SocketAddr)
    requires m.Keys <= {a}
    ensures |m| <= 1
  {
    if a in m {
      assert m.Keys == {a};
    } else {
      assert m.Keys == {};
    }
    assert |m| == |m.Keys|;
  }

  /** The registry does not bound connections that share an address: with any capacity of two
      or more, any number of live tasks can stand behind a single entry. */
  lemma {:induction false} LiveUnbounded(boot: Node, a: SocketAddr, k: nat) returns (n: Node)
    requires Crowd(boot, a, 0) && boot.capacity >= 2
    ensures Reaches(boot, n) && Crowd(n, a, k) && n.capacity == boot.capacity
    ensures forall i :: 0 <= i < k ==> i in LiveIds(n)
  {
    if k == 0 {
      n := boot;
      assert Run(boot, []) == Some(boot);
    } else {
      var m := LiveUnbounded(boot, a, k - 1);
      CrowdGrows(m, a, k - 1);
      ReachesNext(boot, m, Spawn(a));
      ReachesNext(boot, Next(m, Spawn(a)), Turn(k - 1, C.Register));
      n := Next(Next(m, Spawn(a)), Turn(k - 1, C.Register));
    }
  }
}
