/** When a connected task can hear broadcasts (node/connection/src/lib.rs, `start_message_handler`):
    the broadcast branch of its select stays enabled until a receive fails to match, and is off
    from then until a frame of its peer is taken. */
module Deafness {
  import opened Protocol
  import opened Node
  import opened NodeProperties
  import C = Connection

  lemma TasksStay(n: Node, e: Event, i: nat)
    requires Enabled(n, e) && i < |n.tasks|
    ensures i < |Next(n, e).tasks|
    ensures C.HoldsReceiver(Next(n, e).tasks[i].conn) ==> C.HoldsReceiver(n.tasks[i].conn)
  {
    if e.Turn? && e.id == i && !C.HoldsReceiver(n.tasks[i].conn) {
      C.NothingAfterSelect(n.tasks[i].conn, e.turn, n.channel);
    }
  }

  lemma {:induction false} TasksStayRun(n: Node, es: seq<Event>, i: nat)
    requires Run(n, es).Some? && i < |n.tasks|
    ensures i < |Run(n, es).value.tasks|
    decreases |es|
  {
    if es != [] {
      TasksStay(n, es[0], i);
      TasksStayRun(Next(n, es[0]), es[1..], i);
    }
  }

  // ---------------------------------------------------------------- the branch

  /** In the select with the broadcast branch disabled. */
  predicate Off(c: C.Conn) {
    c.phase.Running? && c.handler.Selecting? && !c.handler.broadcastOn
  }

  /** A receive now would not match: it would report lag, or the closing of the channel. */
  predicate Misses(c: C.Conn, ch: C.Broadcast) {
    ch.Overwritten(c.feed.cursor) || c.feed.cursor >= |ch.log|
  }

  /** The event is a receive of task `i`, from its queue or from the channel. */
  predicate Receives(e: Event, i: nat) {
    e == Turn(i, C.TakeQueue) || e == Turn(i, C.TakeBroadcast)
  }

  ghost predicate NoReceive(es: seq<Event>, i: nat) {
    forall e :: e in es ==> !Receives(e, i)
  }

  /** Event `k` of the run is a broadcast receive of task `i` that does not match. */
  ghost predicate MissesAt(n: Node, es: seq<Event>, i: nat, k: nat)
    requires k < |es|
  {
    var before := Run(n, es[..k]);
    && es[k] == Turn(i, C.TakeBroadcast)
    && before.Some? && i < |before.value.tasks| && Misses(before.value.tasks[i].conn, before.value.channel)
  }

  /** The last receive of task `i` in the run does not match. */
  ghost predicate LastMisses(n: Node, es: seq<Event>, i: nat) {
    exists k :: 0 <= k < |es| && MissesAt(n, es, i, k) && NoReceive(es[k + 1..], i)
  }

  lemma OffTurn(c: C.Conn, t: C.Event, ch: C.Broadcast)
    requires C.PhaseInv(c) && C.Enabled(c, t, ch) && C.HoldsReceiver(C.Next(c, t, ch))
    ensures Off(C.Next(c, t, ch)) <==>
            if t == C.TakeQueue then false
            else if t == C.TakeBroadcast then Misses(c, ch)
            else Off(c)
  {
    C.NextPhase(c, t, ch);
  }

  lemma OffStep(n: Node, e: Event, i: nat)
    requires Enabled(n, e) && i < |n.tasks| && C.PhaseInv(n.tasks[i].conn)
    requires i < |Next(n, e).tasks| && C.HoldsReceiver(Next(n, e).tasks[i].conn)
    ensures Off(Next(n, e).tasks[i].conn) <==>
            if e == Turn(i, C.TakeQueue) then false
            else if e == Turn(i, C.TakeBroadcast) then Misses(n.tasks[i].conn, n.channel)
            else Off(n.tasks[i].conn)
  {
    if e.Turn? && e.id == i {
      OffTurn(n.tasks[i].conn, e.turn, n.channel);
    }
  }

  lemma LastMissesAppend(n: Node, es: seq<Event>, e: Event, i: nat)
    ensures LastMisses(n, es + [e], i) <==>
            if Receives(e, i) then MissesAt(n, es + [e], i, |es|) else LastMisses(n, es, i)
  {
    var all := es + [e];
    forall k | 0 <= k < |es|
      ensures MissesAt(n, all, i, k) == MissesAt(n, es, i, k)
      ensures NoReceive(all[k + 1..], i) <==> NoReceive(es[k + 1..], i) && !Receives(e, i)
    {
      assert all[..k] == es[..k];
      assert all[k + 1..] == es[k + 1..] + [e];
    }
    assert all[|es| + 1..] == [];
    if Receives(e, i) && MissesAt(n, all, i, |es|) {
      assert NoReceive(all[|es| + 1..], i);
    }
    if !Receives(e, i) && LastMisses(n, es, i) {
      var k :| 0 <= k < |es| && MissesAt(n, es, i, k) && NoReceive(es[k + 1..], i);
      assert MissesAt(n, all, i, k) && NoReceive(all[k + 1..], i);
    }
  }

  /** Exactly when a task that still holds its receiver is deaf: the last of its receives was a
      broadcast receive that reported lag or closure, or it has received nothing in this run and
      was deaf before it. */
  lemma {:induction false} OffIff(n: Node, es: seq<Event>, i: nat)
    requires Inv(n) && i < |n.tasks| && Run(n, es).Some?
    requires i < |Run(n, es).value.tasks| && C.HoldsReceiver(Run(n, es).value.tasks[i].conn)
    ensures Off(Run(n, es).value.tasks[i].conn) <==>
            LastMisses(n, es, i) || (Off(n.tasks[i].conn) && NoReceive(es, i))
    decreases |es|
  {
    if es != [] {
      var es0, e := es[..|es| - 1], es[|es| - 1];
      assert es == es0 + [e];
      RunLast(n, es);
      var before := Run(n, es0).value;
      RunInv(n, es0);
      TasksStayRun(n, es0, i);
      TasksStay(before, e, i);
      assert TaskInv(before, i);
      OffStep(before, e, i);
      OffIff(n, es0, i);
      LastMissesAppend(n, es0, e, i);
      assert es[..|es0|] == es0;
    }
  }

  /** Over the whole life of a task: from its spawning on, it is deaf exactly when the last of
      its receives was a broadcast receive that reported lag or closure. */
  lemma OffSinceSpawnIff(n: Node, addr: SocketAddr, es: seq<Event>)
    requires Inv(n) && Enabled(n, Spawn(addr)) && Run(Next(n, Spawn(addr)), es).Some?
    ensures var m, i := Run(Next(n, Spawn(addr)), es).value, |n.tasks|;
            && i < |m.tasks| && m.tasks[i].addr == addr
            && (C.HoldsReceiver(m.tasks[i].conn) ==>
                  (Off(m.tasks[i].conn) <==> LastMisses(Next(n, Spawn(addr)), es, i)))
  {
    var next, i := Next(n, Spawn(addr)), |n.tasks|;
    StepRun(n, [Spawn(addr)]);
    SubscriptionFixed(next, es, i);
    if C.HoldsReceiver(Run(next, es).value.tasks[i].conn) {
      OffIff(next, es, i);
    }
  }

  // ---------------------------------------------------------------- lag

  /** Event `k` of the run is a broadcast receive of task `i` whose entry has been overwritten. */
  ghost predicate LagsAt(n: Node, es: seq<Event>, i: nat, k: nat)
    requires k < |es|
  {
    var before := Run(n, es[..k]);
    && es[k] == Turn(i, C.TakeBroadcast)
    && before.Some? && i < |before.value.tasks|
    && before.value.channel.Overwritten(before.value.tasks[i].conn.feed.cursor)
  }

  ghost predicate EverLags(n: Node, es: seq<Event>, i: nat) {
    exists k :: 0 <= k < |es| && LagsAt(n, es, i, k)
  }

  lemma LaggedStep(n: Node, e: Event, i: nat)
    requires Enabled(n, e) && i < |n.tasks| && i < |Next(n, e).tasks|
    ensures Next(n, e).tasks[i].conn.feed.lagged <==>
            || n.tasks[i].conn.feed.lagged
            || (e == Turn(i, C.TakeBroadcast) && n.channel.Overwritten(n.tasks[i].conn.feed.cursor))
  {
    if e.Turn? && e.id == i {
      LaggedTurn(n.tasks[i].conn, e.turn, n.channel);
    }
  }

  lemma LaggedTurn(c: C.Conn, t: C.Event, ch: C.Broadcast)
    requires C.Enabled(c, t, ch)
    ensures C.Next(c, t, ch).feed.lagged <==>
            c.feed.lagged || (t == C.TakeBroadcast && ch.Overwritten(c.feed.cursor))
  {
    if t == C.SinkAccept {
      assert C.Accept(c).feed.lagged == c.feed.lagged;
    }
  }

  lemma EverLagsAppend(n: Node, es: seq<Event>, e: Event, i: nat)
    ensures EverLags(n, es + [e], i) <==> EverLags(n, es, i) || LagsAt(n, es + [e], i, |es|)
  {
    var all := es + [e];
    forall k | 0 <= k < |es| ensures LagsAt(n, all, i, k) == LagsAt(n, es, i, k) {
      assert all[..k] == es[..k];
    }
    if EverLags(n, es, i) {
      var k :| 0 <= k < |es| && LagsAt(n, es, i, k);
      assert LagsAt(n, all, i, k);
    }
  }

  /** A task has been told of lag exactly when some receive of its came after the entry it was to
      get had been overwritten. */
  lemma {:induction false} LaggedIff(n: Node, es: seq<Event>, i: nat)
    requires i < |n.tasks| && Run(n, es).Some?
    ensures i < |Run(n, es).value.tasks|
    ensures Run(n, es).value.tasks[i].conn.feed.lagged <==> n.tasks[i].conn.feed.lagged || EverLags(n, es, i)
    decreases |es|
  {
    if es != [] {
      var es0, e := es[..|es| - 1], es[|es| - 1];
      assert es == es0 + [e];
      RunLast(n, es);
      LaggedIff(n, es0, i);
      TasksStay(Run(n, es0).value, e, i);
      LaggedStep(Run(n, es0).value, e, i);
      EverLagsAppend(n, es0, e, i);
      assert es[..|es0|] == es0;
    }
  }

  lemma ChannelStays(n: Node, e: Event)
    requires Enabled(n, e)
    ensures Next(n, e).channel.open ==> n.channel.open
  {
  }

  lemma {:induction false} ChannelStaysRun(n: Node, es: seq<Event>)
    requires Run(n, es).Some?
    ensures Run(n, es).value.channel.open ==> n.channel.open
    decreases |es|
  {
    if es != [] {
      ChannelStaysRun(Next(n, es[0]), es[1..]);
      ChannelStays(n, es[0]);
    }
  }

  /** While the channel is open, a task that stays within the window and is not deaf to begin with
      is never deaf as long as it holds its receiver. */
  lemma {:induction false} KeepingUpHears(n: Node, es: seq<Event>, i: nat)
    requires Inv(n) && KeepsUp(n, es, i) && Run(n, es).Some? && i < |n.tasks| && !Off(n.tasks[i].conn)
    ensures var m := Run(n, es).value;
            i < |m.tasks| && (m.channel.open && C.HoldsReceiver(m.tasks[i].conn) ==> !Off(m.tasks[i].conn))
    decreases |es|
  {
    if es != [] {
      var next := Next(n, es[0]);
      StepRun(n, es);
      TasksStay(n, es[0], i);
      ChannelStaysRun(next, es[1..]);
      if next.channel.open && C.HoldsReceiver(next.tasks[i].conn) {
        assert TaskInv(n, i);
        OffStep(n, es[0], i);
        KeepingUpHears(next, es[1..], i);
      } else {
        StaysOut(next, es[1..], i);
      }
    }
  }

  lemma {:induction false} StaysOut(n: Node, es: seq<Event>, i: nat)
    requires Run(n, es).Some? && i < |n.tasks|
    ensures var m := Run(n, es).value;
            i < |m.tasks| && (C.HoldsReceiver(m.tasks[i].conn) ==> C.HoldsReceiver(n.tasks[i].conn))
    decreases |es|
  {
    if es != [] {
      TasksStay(n, es[0], i);
      StaysOut(Next(n, es[0]), es[1..], i);
    }
  }

  // ---------------------------------------------------------------- hearing

  /** The three turns that pass one broadcast on. */
  function Forward(i: nat): seq<Event> {
    [Turn(i, C.TakeBroadcast), Turn(i, C.SinkAccept), Turn(i, C.SinkDone)]
  }

  /** What passing on the next broadcast makes of a task. */
  ghost predicate ForwardedOne(c: C.Conn, d: C.Conn, ch: C.Broadcast) {
    && Listening(d) && c.feed.cursor < |ch.log|
    && d.feed.cursor == c.feed.cursor + 1
    && d.feed.forwarded == c.feed.forwarded + [ch.log[c.feed.cursor]]
    && d.sent == c.sent + [ch.log[c.feed.cursor]]
  }

  lemma ForwardTurns(c: C.Conn, ch: C.Broadcast)
    requires Listening(c) && !Misses(c, ch)
    ensures C.Enabled(c, C.TakeBroadcast, ch)
    ensures var taken := C.Next(c, C.TakeBroadcast, ch);
            && C.Enabled(taken, C.SinkAccept, ch)
            && var accepted := C.Next(taken, C.SinkAccept, ch);
               C.Enabled(accepted, C.SinkDone, ch) && ForwardedOne(c, C.Next(accepted, C.SinkDone, ch), ch)
  {
  }

  lemma TurnOf(n: Node, i: nat, t: C.Event)
    requires i < |n.tasks| && C.Enabled(n.tasks[i].conn, t, n.channel) && t != C.Register && t != C.Refuse
    ensures Enabled(n, Turn(i, t))
    ensures var m := Next(n, Turn(i, t));
            |m.tasks| == |n.tasks| && m.channel == n.channel
            && m.tasks[i].conn == C.Next(n.tasks[i].conn, t, n.channel)
  {
  }

  /** A task that is not deaf can pass on the next broadcast still within the window, whatever its
      peer does or does not send, and listens again. */
  lemma ListeningForwards(n: Node, i: nat)
    requires i < |n.tasks| && Listening(n.tasks[i].conn) && !Misses(n.tasks[i].conn, n.channel)
    ensures Run(n, Forward(i)).Some?
    ensures var m := Run(n, Forward(i)).value;
            |m.tasks| == |n.tasks| && m.channel == n.channel
            && ForwardedOne(n.tasks[i].conn, m.tasks[i].conn, n.channel)
  {
    ForwardTurns(n.tasks[i].conn, n.channel);
    var take, accept, done := Turn(i, C.TakeBroadcast), Turn(i, C.SinkAccept), Turn(i, C.SinkDone);
    TurnOf(n, i, C.TakeBroadcast);
    var taken := Next(n, take);
    TurnOf(taken, i, C.SinkAccept);
    TurnOf(Next(taken, accept), i, C.SinkDone);
    assert Forward(i)[1..] == [accept, done];
    RunTwo(taken, accept, done);
  }

  /** So it can pass on, in order, everything it has not read yet, if none of it is overwritten. */
  lemma {:induction false} ListeningCatchesUp(n: Node, i: nat) returns (es: seq<Event>)
    requires i < |n.tasks| && Listening(n.tasks[i].conn)
    requires n.tasks[i].conn.feed.cursor <= |n.channel.log|
    requires !n.channel.Overwritten(n.tasks[i].conn.feed.cursor)
    ensures Run(n, es).Some?
    ensures var m := Run(n, es).value;
            |m.tasks| == |n.tasks| && m.channel == n.channel
            && Listening(m.tasks[i].conn) && m.tasks[i].conn.feed.cursor == |n.channel.log|
            && m.tasks[i].conn.feed.forwarded
               == n.tasks[i].conn.feed.forwarded + n.channel.log[n.tasks[i].conn.feed.cursor..]
    decreases |n.channel.log| - n.tasks[i].conn.feed.cursor
  {
    var feed, log := n.tasks[i].conn.feed, n.channel.log;
    es := [];
    if feed.cursor < |log| {
      ListeningForwards(n, i);
      var rest := ListeningCatchesUp(Run(n, Forward(i)).value, i);
      es := Forward(i) + rest;
      RunJoin(n, Forward(i), rest);
      TailFirst(feed.forwarded, log, feed.cursor);
    }
  }

  lemma TailFirst(forwarded: seq<Frame>, log: seq<Frame>, k: nat)
    requires k < |log|
    ensures forwarded + [log[k]] + log[k + 1..] == forwarded + log[k..]
  {
  }
}
