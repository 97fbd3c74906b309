/** When a node's heartbeat task publishes, and when it does not (node/connection/src/lib.rs,
    `start_heartbeat`); and who is let into the registry (`start`). */
module Heartbeats {
  import opened Protocol
  import opened ConnectionManagement
  import opened Node
  import opened NodeProperties
  import C = Connection
  import T = HeartbeatTimer

  // ---------------------------------------------------------------- why it publishes

  predicate IsTick(e: Event) {
    e.Beat? && e.beat.Tick?
  }

  predicate IsPublish(e: Event) {
    e.Beat? && e.beat.Publish?
  }

  ghost predicate NeitherIn(es: seq<Event>) {
    forall e :: e in es ==> !IsTick(e) && !IsPublish(e)
  }

  /** Event `k` of the run is a tick at which somebody is registered. */
  ghost predicate TicksOnPeer(n: Node, es: seq<Event>, k: nat)
    requires k < |es|
  {
    IsTick(es[k]) && Run(n, es[..k]).Some? && Run(n, es[..k]).value.registry != map[]
  }

  /** The last tick or publish of the run is a tick at which somebody is registered. */
  ghost predicate LastTicksOnPeer(n: Node, es: seq<Event>) {
    exists k :: 0 <= k < |es| && TicksOnPeer(n, es, k) && NeitherIn(es[k + 1..])
  }

  lemma LastTicksAppend(n: Node, es: seq<Event>, e: Event)
    ensures LastTicksOnPeer(n, es + [e]) <==>
            if IsTick(e) || IsPublish(e) then TicksOnPeer(n, es + [e], |es|) else LastTicksOnPeer(n, es)
  {
    var all := es + [e];
    forall k | 0 <= k < |es|
      ensures TicksOnPeer(n, all, k) == TicksOnPeer(n, es, k)
      ensures NeitherIn(all[k + 1..]) <==> NeitherIn(es[k + 1..]) && !IsTick(e) && !IsPublish(e)
    {
      assert all[..k] == es[..k];
      assert all[k + 1..] == es[k + 1..] + [e];
    }
    assert all[|es| + 1..] == [];
    if IsTick(e) || IsPublish(e) {
      if TicksOnPeer(n, all, |es|) {
        assert NeitherIn(all[|es| + 1..]);
      }
    } else if LastTicksOnPeer(n, es) {
      var k :| 0 <= k < |es| && TicksOnPeer(n, es, k) && NeitherIn(es[k + 1..]);
      assert TicksOnPeer(n, all, k) && NeitherIn(all[k + 1..]);
    }
  }

  lemma SendingStep(n: Node, e: Event)
    requires Enabled(n, e)
    ensures Next(n, e).timer.phase.Sending? <==>
            if IsTick(e) then n.registry != map[]
            else if IsPublish(e) then false
            else n.timer.phase.Sending?
  {
    assert |n.registry| == 0 <==> n.registry == map[];
  }

  /** The task is about to publish exactly when its last tick fell while somebody was registered,
      and it has not published since. */
  lemma {:induction false} AboutToPublishIff(n: Node, es: seq<Event>)
    requires Run(n, es).Some? && n.timer.phase.Waiting?
    ensures Run(n, es).value.timer.phase.Sending? <==> LastTicksOnPeer(n, es)
    decreases |es|
  {
    if es != [] {
      var es0, e := es[..|es| - 1], es[|es| - 1];
      assert es == es0 + [e];
      RunLast(n, es);
      AboutToPublishIff(n, es0);
      SendingStep(Run(n, es0).value, e);
      LastTicksAppend(n, es0, e);
      assert es[..|es0|] == es0;
    }
  }

  /** So before every publish of a run, heard or not, the last tick was taken while somebody was
      registered, and nothing was published after it. */
  lemma PublishNeedsPeer(n: Node, es: seq<Event>, k: nat)
    requires Run(n, es).Some? && n.timer.phase.Waiting? && k < |es| && IsPublish(es[k])
    ensures LastTicksOnPeer(n, es[..k])
  {
    RunUpTo(n, es, k);
    AboutToPublishIff(n, es[..k]);
  }

  lemma RunUpTo(n: Node, es: seq<Event>, k: nat)
    requires Run(n, es).Some? && k < |es|
    ensures Run(n, es[..k]).Some? && Enabled(Run(n, es[..k]).value, es[k])
  {
    var es0 := es[..k + 1];
    assert es == es0 + es[k + 1..] && es0[..k] == es[..k];
    RunPrefix(n, es0, es[k + 1..]);
    RunLast(n, es0);
  }

  // ---------------------------------------------------------------- nobody registered

  /** No task of the run gets registered. */
  ghost predicate NobodyRegisters(es: seq<Event>) {
    forall e :: e in es ==> !(e.Turn? && e.turn == C.Register)
  }

  lemma {:induction false} StaysSilent(n: Node, es: seq<Event>)
    requires Run(n, es).Some? && NobodyRegisters(es)
    requires n.registry == map[] && n.timer.phase.Waiting?
    ensures var m := Run(n, es).value; m.registry == map[] && m.channel.log == n.channel.log && m.timer.phase.Waiting?
    decreases |es|
  {
    if es != [] {
      assert es[0] in es && forall e :: e in es[1..] ==> e in es;
      assert |n.registry| == 0;
      StaysSilent(Next(n, es[0]), es[1..]);
    }
  }

  /** A node to which nobody is let in broadcasts nothing and its heartbeat task lives on, however
      long it runs. */
  lemma SilentAlone(capacity: nat, maxPending: nat, window: nat, period: nat, bind: SocketAddr, now: int,
                    es: seq<Event>)
    requires Run(Boot(capacity, maxPending, window, period, bind, now), es).Some? && NobodyRegisters(es)
    ensures var m := Run(Boot(capacity, maxPending, window, period, bind, now), es).value;
            m.registry == map[] && m.channel.log == [] && m.timer.phase.Waiting?
  {
    StaysSilent(Boot(capacity, maxPending, window, period, bind, now), es);
  }

  // ---------------------------------------------------------------- a due tick

  /** With nobody registered a due tick is taken, publishes nothing, and the task waits for the
      next. */
  lemma DueTickAlone(n: Node)
    requires n.timer.phase.Waiting? && n.timer.deadline <= n.timer.now && n.registry == map[]
    ensures Enabled(n, Beat(T.Tick(false))) && !Enabled(n, Beat(T.Tick(true)))
    ensures var m := Next(n, Beat(T.Tick(false)));
            m == n.(timer := n.timer.(deadline := n.timer.deadline + n.timer.period))
  {
  }

  /** A publish is heard exactly if some task is not yet past its select. */
  lemma HeardIff(n: Node)
    ensures Heard(n) <==>
            exists i :: 0 <= i < |n.tasks| && (n.tasks[i].conn.phase.Opening?
              || n.tasks[i].conn.phase.Greeting? || n.tasks[i].conn.phase.Running?)
  {
  }

  /** With somebody registered a due tick is taken and leads to a publish: one heartbeat more on
      the channel if it is heard, and the end of the heartbeat task if it is not. */
  lemma DueTickPublishes(n: Node)
    requires n.timer.phase.Waiting? && n.timer.deadline <= n.timer.now && n.registry != map[]
    ensures Enabled(n, Beat(T.Tick(true))) && !Enabled(n, Beat(T.Tick(false)))
    ensures var run := Run(n, [Beat(T.Tick(true)), Beat(T.Publish(Heard(n)))]);
            && run.Some? && run.value.tasks == n.tasks && run.value.registry == n.registry
            && run.value.channel.log == n.channel.log + (if Heard(n) then [n.heartbeat] else [])
            && run.value.timer.deadline == n.timer.deadline + n.timer.period
            && run.value.timer.phase == (if Heard(n) then T.Waiting else T.Quit)
  {
    assert |n.registry| == 0 <==> n.registry == map[];
    var heard, ticked := Heard(n), Next(n, Beat(T.Tick(true)));
    assert ticked.tasks == n.tasks && Heard(ticked) == heard;
    RunTwo(n, Beat(T.Tick(true)), Beat(T.Publish(heard)));
  }

  /** The channel can close once the heartbeat task, which holds a sender, is gone, and not before;
      nothing else changes when it does. */
  lemma ChannelCanClose(n: Node)
    ensures Enabled(n, CloseChannel) <==> n.timer.phase.Quit? && n.channel.open
    ensures Enabled(n, CloseChannel) ==>
              Next(n, CloseChannel) == n.(channel := C.Broadcast(n.channel.log, n.channel.window, false))
  {
  }

  // ---------------------------------------------------------------- who is let in

  /** A dial that fails ends its task before it asks, and leaves everything else alone. */
  lemma DialFails(n: Node, i: nat)
    requires i < |n.tasks|
    ensures Enabled(n, Abandon(i)) <==> n.tasks[i].conn.phase.Opening?
    ensures n.tasks[i].conn.phase.Opening? ==>
              var m := Next(n, Abandon(i));
              && m == n.(tasks := m.tasks) && |m.tasks| == |n.tasks|
              && m.tasks[i].addr == n.tasks[i].addr
              && m.tasks[i].conn == n.tasks[i].conn.(phase := C.Refused)
              && forall j :: 0 <= j < |n.tasks| && j != i ==> m.tasks[j] == n.tasks[j]
  {
  }

  /** A task that asks is let in exactly when the registry has room, and then found in it under its
      address with the time; otherwise it is turned away and the registry stays as it is. */
  lemma Admission(n: Node, i: nat)
    requires i < |n.tasks| && n.tasks[i].conn.phase.Opening?
    ensures Enabled(n, Turn(i, C.Register)) <==> |n.registry| < n.capacity
    ensures Enabled(n, Turn(i, C.Refuse)) <==> |n.registry| >= n.capacity
    ensures |n.registry| < n.capacity ==>
              var m := Next(n, Turn(i, C.Register));
              && m.registry == n.registry[n.tasks[i].addr := Metadata(n.timer.now)]
              && m.tasks[i].conn == n.tasks[i].conn.(phase := C.Greeting)
    ensures |n.registry| >= n.capacity ==>
              var m := Next(n, Turn(i, C.Refuse));
              m.registry == n.registry && m.tasks[i].conn == n.tasks[i].conn.(phase := C.Refused)
  {
  }
}
