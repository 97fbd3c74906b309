/** The heartbeat task as the code runs it: a loop around a select that moves an interval and
    publishes on the shared channel (node/connection/src/lib.rs, `start_heartbeat`). */
module HeartbeatTasks {
  import opened Wrappers
  import opened Protocol
  import opened ConnectionManagement
  import opened ConnectionTasks
  import T = HeartbeatTimer

  /** One turn of the loop as the environment shapes it: the time spent asleep, whether the
      accept loop notified meanwhile, the registry calls of other tasks meanwhile, which ready
      branch the select picks, and whether the channel has a receiver. */
  datatype Wake = Wake(asleep: nat, notified: bool, calls: seq<Call>, resetFirst: bool, heard: bool)

  function CallsDuring(wakes: seq<Wake>): seq<Call> {
    if wakes == [] then [] else CallsDuring(wakes[..|wakes| - 1]) + wakes[|wakes| - 1].calls
  }

  // ---------------------------------------------------------------- the loop, as timer events

  /** What passes while the task is asleep. */
  function Sleeps(wake: Wake): seq<T.Event> {
    if wake.notified then [T.Elapse(wake.asleep), T.NotifyOne] else [T.Elapse(wake.asleep)]
  }

  function Slept(t: T.Timer, wake: Wake): T.Timer {
    t.(now := t.now + wake.asleep, permit := t.permit || wake.notified)
  }

  /** The tick branch. */
  function Fires(connected: bool, heard: bool): seq<T.Event> {
    if connected then [T.Tick(true), T.Publish(heard)] else [T.Tick(false)]
  }

  /** The branch the select takes on waking up: with both ready it may take either. */
  function Selects(t: T.Timer, wake: Wake, connected: bool): seq<T.Event> {
    if t.permit && (wake.resetFirst || t.now < t.deadline) then [T.Reset]
    else if t.deadline <= t.now then Fires(connected, wake.heard)
    else []
  }

  /** One pass of the loop. */
  function Pass(t: T.Timer, wake: Wake, connected: bool): seq<T.Event> {
    Sleeps(wake) + Selects(Slept(t, wake), wake, connected)
  }

  /** Whether the registry was not empty at each wake-up. */
  function Connected(capacity: nat, history: seq<Call>, wakes: seq<Wake>): (flags: seq<bool>)
    ensures |flags| == |wakes|
  {
    if wakes == [] then []
    else
      Connected(capacity, history, wakes[..|wakes| - 1])
      + [|Replay(capacity, history + CallsDuring(wakes))| > 0]
  }

  /** All passes of the loop, from `t` on. */
  function Loop(t: T.Timer, wakes: seq<Wake>, connected: seq<bool>): seq<T.Event>
    requires |connected| == |wakes|
  {
    if wakes == [] then []
    else
      var n := |wakes| - 1;
      var before := Loop(t, wakes[..n], connected[..n]);
      var now := T.Run(t, before);
      before + (if now.Some? then Pass(now.value, wakes[n], connected[n]) else [])
  }

  lemma ConnectedAppend(capacity: nat, history: seq<Call>, wakes: seq<Wake>, wake: Wake)
    ensures history + CallsDuring(wakes + [wake]) == history + CallsDuring(wakes) + wake.calls
    ensures Connected(capacity, history, wakes + [wake])
            == Connected(capacity, history, wakes)
               + [|Replay(capacity, history + CallsDuring(wakes) + wake.calls)| > 0]
  {
    assert (wakes + [wake])[..|wakes|] == wakes;
    assert history + (CallsDuring(wakes) + wake.calls) == history + CallsDuring(wakes) + wake.calls;
  }

  lemma LoopAppend(t: T.Timer, wakes: seq<Wake>, connected: seq<bool>, wake: Wake, now: bool)
    requires |connected| == |wakes| && T.Run(t, Loop(t, wakes, connected)).Some?
    ensures var before := T.Run(t, Loop(t, wakes, connected)).value;
            T.Run(t, Loop(t, wakes + [wake], connected + [now])) == T.Run(before, Pass(before, wake, now))
  {
    var passes := Loop(t, wakes, connected);
    assert (wakes + [wake])[..|wakes|] == wakes && (connected + [now])[..|wakes|] == connected;
    T.RunConcat(t, passes, Pass(T.Run(t, passes).value, wake, now));
  }

  lemma RunOne(t: T.Timer, e: T.Event)
    requires T.Enabled(t, e)
    ensures T.Run(t, [e]) == Some(T.Next(t, e))
  {
    assert T.Run(T.Next(t, e), [e][1..]) == Some(T.Next(t, e));
  }

  lemma RunTwo(t: T.Timer, e: T.Event, f: T.Event)
    requires T.Enabled(t, e) && T.Enabled(T.Next(t, e), f)
    ensures T.Run(t, [e, f]) == Some(T.Next(T.Next(t, e), f))
  {
    assert [e, f][1..] == [f];
    RunOne(T.Next(t, e), f);
  }

  lemma SleepRun(t: T.Timer, wake: Wake)
    ensures T.Run(t, Sleeps(wake)) == Some(Slept(t, wake))
  {
    if wake.notified {
      RunTwo(t, T.Elapse(wake.asleep), T.NotifyOne);
    } else {
      RunOne(t, T.Elapse(wake.asleep));
    }
  }

  /** What a pass does: time goes by, a reset takes the stored notification and puts the deadline
      one period off, a tick moves the deadline by one period and publishes if somebody is
      connected; and with either ready one of them happens. */
  lemma PassDoes(t: T.Timer, wake: Wake, connected: bool)
    requires t.phase.Waiting?
    ensures T.Run(t, Pass(t, wake, connected)).Some?
    ensures var u := T.Run(t, Pass(t, wake, connected)).value;
            var stored, due := t.permit || wake.notified, t.deadline <= t.now + wake.asleep;
            && u.now == t.now + wake.asleep
            && (stored && (wake.resetFirst || !due) ==>
                  !u.permit && u.deadline == u.now + t.period && u.phase.Waiting?
                  && T.Sends(u.marks) == T.Sends(t.marks))
            && (due && !(stored && wake.resetFirst) ==>
                  && u.permit == stored && u.deadline == t.deadline + t.period
                  && T.Sends(u.marks) == T.Sends(t.marks) + (if connected && wake.heard then 1 else 0)
                  && (u.phase.Quit? <==> connected && !wake.heard) && !u.phase.Sending?)
            && (!stored && !due ==> u == Slept(t, wake))
  {
    SleepRun(t, wake);
    var s := Slept(t, wake);
    var es := Selects(s, wake, connected);
    T.RunConcat(t, Sleeps(wake), es);
    if es == [T.Reset] {
      RunOne(s, T.Reset);
      T.SendsAppend(s.marks, T.ResetAt(s.now));
    } else if es != [] && connected {
      RunTwo(s, T.Tick(true), T.Publish(wake.heard));
      T.SendsAppend(s.marks, T.SentAt(s.now));
    } else if es != [] {
      RunOne(s, T.Tick(false));
    }
  }

  /** Nobody notifies, every publish is heard and somebody is always connected. */
  ghost predicate Calm(wakes: seq<Wake>, connected: seq<bool>)
    requires |connected| == |wakes|
  {
    forall k :: 0 <= k < |wakes| ==> !wakes[k].notified && wakes[k].heard && connected[k]
  }

  lemma {:induction false} CalmLoop(t: T.Timer, wakes: seq<Wake>, connected: seq<bool>)
    requires |connected| == |wakes| && Calm(wakes, connected)
    requires !t.permit && T.Run(t, Loop(t, wakes, connected)).Some?
    ensures T.Undisturbed(Loop(t, wakes, connected)) && !T.Run(t, Loop(t, wakes, connected)).value.permit
  {
    if wakes != [] {
      var n := |wakes| - 1;
      var before := Loop(t, wakes[..n], connected[..n]);
      assert before + [] == before;
      if T.Run(t, before).Some? {
        CalmLoop(t, wakes[..n], connected[..n]);
        var u := T.Run(t, before).value;
        T.RunConcat(t, before, Pass(u, wakes[n], connected[n]));
        CalmPass(u, wakes[n]);
      }
    }
  }

  lemma CalmPass(t: T.Timer, wake: Wake)
    requires !t.permit && !wake.notified && wake.heard && T.Run(t, Pass(t, wake, true)).Some?
    ensures T.Undisturbed(Pass(t, wake, true)) && !T.Run(t, Pass(t, wake, true)).value.permit
  {
    SleepRun(t, wake);
    var s := Slept(t, wake);
    T.RunConcat(t, Sleeps(wake), Selects(s, wake, true));
    if t.phase.Waiting? {
      PassDoes(t, wake, true);
    }
  }

  /** Wake-ups in a row that find the task still busy: no time passes, and nobody notifies. */
  ghost predicate AtOnce(wakes: seq<Wake>) {
    forall w :: w in wakes ==> w.asleep == 0 && !w.notified && w.heard
  }

  lemma {:induction false} PassesAppend(connected: seq<bool>, flag: bool)
    ensures T.Passes(connected + [flag]) == T.Passes(connected) + Fires(flag, true)
    decreases |connected|
  {
    if connected == [] {
      assert [] + [flag] == [flag] && [flag][1..] == [];
    } else {
      assert (connected + [flag])[1..] == connected[1..] + [flag];
      PassesAppend(connected[1..], flag);
    }
  }

  /** At once, a pass with a deadline past is the tick branch. */
  lemma PassAtOnce(t: T.Timer, wake: Wake, connected: bool)
    requires t.phase.Waiting? && !t.permit && t.deadline <= t.now
    requires wake.asleep == 0 && !wake.notified && wake.heard
    ensures T.Run(t, Pass(t, wake, connected)) == T.Run(t, Fires(connected, true))
  {
    SleepRun(t, wake);
    assert Slept(t, wake) == t;
    T.RunConcat(t, Sleeps(wake), Selects(t, wake, connected));
  }

  lemma PassesConcat(t: T.Timer, connected: seq<bool>, flag: bool)
    requires T.Run(t, T.Passes(connected)).Some?
    ensures T.Run(t, T.Passes(connected + [flag]))
            == T.Run(T.Run(t, T.Passes(connected)).value, Fires(flag, true))
  {
    PassesAppend(connected, flag);
    T.RunConcat(t, T.Passes(connected), Fires(flag, true));
  }

  /** A late loop catches up as the timer does: while a deadline is past it goes round without
      sleeping, by exactly the passes of LateTicksBurst. */
  lemma {:induction false} LateLoopBurst(t: T.Timer, wakes: seq<Wake>, connected: seq<bool>)
    requires |connected| == |wakes| && AtOnce(wakes) && t.phase.Waiting? && !t.permit
    requires wakes != [] ==> t.deadline + T.Periods(t.period, |wakes| - 1) <= t.now
    ensures T.Run(t, Loop(t, wakes, connected)).Some?
    ensures T.Run(t, Loop(t, wakes, connected)) == T.Run(t, T.Passes(connected))
  {
    T.LateTicksBurst(t, connected);
    if wakes != [] {
      var n := |wakes| - 1;
      var before, wake, flags, flag := wakes[..n], wakes[n], connected[..n], connected[n];
      T.PeriodsGrow(t.period, if n > 0 then n - 1 else 0, n);
      LateLoopBurst(t, before, flags);
      T.LateTicksBurst(t, flags);
      assert connected == flags + [flag] && wakes == before + [wake] && wake in wakes;
      PassesConcat(t, flags, flag);
      LoopAppend(t, before, flags, wake, flag);
      PassAtOnce(T.Run(t, T.Passes(flags)).value, wake, flag);
    }
  }

  class HeartbeatTask {
    const period: nat
    const started: int
    const manager: ConnectionManager
    const channel: BroadcastChannel
    const message: Frame    // encoded once, so every heartbeat carries the starting time

    var now: int
    var deadline: int
    var permit: bool
    var phase: T.Phase
    ghost var marks: seq<T.Mark>

    ghost function View(): T.Timer
      reads this
    {
      T.Timer(period, started, now, deadline, permit, phase, marks)
    }

    /** The channel has since `before` received the task's message only. */
    ghost predicate Added(before: seq<Frame>)
      reads channel
    {
      before <= channel.log && forall k :: |before| <= k < |channel.log| ==> channel.log[k] == message
    }

    constructor (bind: SocketAddr, period: nat, manager: ConnectionManager, channel: BroadcastChannel, now: int)
      ensures View() == T.Start(now, period) && T.Inv(View())
      ensures this.manager == manager && this.channel == channel
      ensures message == Encoded(Heartbeat(HeartbeatMessage(bind, now)))
    {
      this.period, this.started, this.manager, this.channel := period, now, manager, channel;
      message := Encoded(HeartbeatMessage.Start(bind, now));
      this.now, deadline, permit, phase, marks := now, now, false, T.Waiting, [];
    }

    method Sleep(wake: Wake)
      requires manager.Valid()
      modifies this, manager
      ensures manager.Valid() && manager.history == old(manager.history) + wake.calls
      ensures View() == Slept(old(View()), wake)
    {
      now := now + wake.asleep;
      if wake.notified {
        permit := true;
      }
      manager.PerformAll(wake.calls);
    }

    method Tick()
      requires manager.Valid() && T.Enabled(View(), T.Tick(true))
      modifies this
      ensures View() == T.Next(old(View()), T.Tick(|manager.sharedState| > 0))
    {
      deadline := deadline + period;
      var connections := manager.NumConnections();
      if connections > 0 {
        phase := T.Sending;
      }
    }

    method Publish(heard: bool)
      requires T.Enabled(View(), T.Publish(heard))
      modifies this, channel
      ensures View() == T.Next(old(View()), T.Publish(heard))
      ensures channel.log == old(channel.log) + if heard then [message] else []
    {
      if heard {
        channel.Send(message);
        phase, marks := T.Waiting, marks + [T.SentAt(now)];
      } else {
        phase := T.Quit;
      }
    }

    method Reset()
      requires T.Enabled(View(), T.Reset)
      modifies this
      ensures View() == T.Next(old(View()), T.Reset)
    {
      permit, deadline, marks := false, now + period, marks + [T.ResetAt(now)];
    }

    /** The tick branch: publish if somebody is connected. */
    method Fire(heard: bool)
      requires manager.Valid() && phase.Waiting? && deadline <= now
      modifies this, channel
      ensures T.Run(old(View()), Fires(|manager.sharedState| > 0, heard)) == Some(View())
      ensures |channel.log| - |old(channel.log)| == T.Sends(marks) - T.Sends(old(marks))
      ensures Added(old(channel.log))
    {
      ghost var before := View();
      Tick();
      if phase.Sending? {
        RunTwo(before, T.Tick(true), T.Publish(heard));
        T.SendsAppend(marks, T.SentAt(now));
        Publish(heard);
      } else {
        RunOne(before, T.Tick(false));
      }
    }

    /** The select, on waking up. */
    method Select(wake: Wake)
      requires manager.Valid() && phase.Waiting?
      modifies this, channel
      ensures T.Run(old(View()), Selects(old(View()), wake, |manager.sharedState| > 0)) == Some(View())
      ensures |channel.log| - |old(channel.log)| == T.Sends(marks) - T.Sends(old(marks))
      ensures Added(old(channel.log))
    {
      if permit && (wake.resetFirst || deadline > now) {
        RunOne(View(), T.Reset);
        T.SendsAppend(marks, T.ResetAt(now));
        Reset();
      } else if deadline <= now {
        Fire(wake.heard);
      }
    }

    /** One pass of the loop is the timer's pass, with each publish recorded on the channel. */
    method Turn(wake: Wake)
      requires manager.Valid() && phase.Waiting?
      modifies this, channel, manager
      ensures manager.Valid() && manager.history == old(manager.history) + wake.calls
      ensures T.Run(old(View()), Pass(old(View()), wake, |manager.sharedState| > 0)) == Some(View())
      ensures !phase.Sending? && now == old(now) + wake.asleep && (old(T.Inv(View())) ==> T.Inv(View()))
      ensures |channel.log| - |old(channel.log)| == T.Sends(marks) - T.Sends(old(marks))
      ensures Added(old(channel.log))
    {
      ghost var before := View();
      SleepRun(before, wake);
      Sleep(wake);
      T.RunConcat(before, Sleeps(wake), Selects(Slept(before, wake), wake, |manager.sharedState| > 0));
      PassDoes(before, wake, |manager.sharedState| > 0);
      Select(wake);
      if T.Inv(before) {
        T.RunInv(before, Pass(before, wake, |manager.sharedState| > 0));
      }
    }

    /** The task got here from its start by the passes of `wakes`, and the channel and the
        registry show just what it sent and the others called. */
    ghost predicate Looped(history: seq<Call>, log: seq<Frame>, wakes: seq<Wake>)
      reads this, channel, manager
    {
      var start := T.Start(started, period);
      var connected := Connected(manager.capacity, history, wakes);
      && manager.Valid() && manager.history == history + CallsDuring(wakes)
      && T.Run(start, Loop(start, wakes, connected)) == Some(View())
      && Added(log) && |channel.log| == |log| + T.Sends(marks)
    }

    /** Nothing disturbed the loop, and nothing is due. */
    ghost predicate Undisturbed(history: seq<Call>, wakes: seq<Wake>)
      reads this, manager
    {
      Calm(wakes, Connected(manager.capacity, history, wakes)) && phase.Waiting? && now < deadline
    }

    /** The channel, once of length `before`, has since had at most one message per elapsed period
        and the first, and exactly so many if nothing disturbed the loop and nothing is due. */
    ghost predicate InTime(history: seq<Call>, before: nat, wakes: seq<Wake>)
      requires period >= 1
      reads this, channel, manager
    {
      && started <= now && |channel.log| - before <= (now - started) / period + 1
      && (Undisturbed(history, wakes) ==> |channel.log| - before == (now - started) / period + 1)
    }

    /** One more pass. */
    method Again(wake: Wake, ghost history: seq<Call>, ghost log: seq<Frame>, ghost wakes: seq<Wake>)
      requires Looped(history, log, wakes) && phase.Waiting?
      modifies this, channel, manager
      ensures Looped(history, log, wakes + [wake]) && !phase.Sending?
    {
      ghost var connected := Connected(manager.capacity, history, wakes);
      Turn(wake);
      ConnectedAppend(manager.capacity, history, wakes, wake);
      LoopAppend(T.Start(started, period), wakes, connected, wake, |manager.sharedState| > 0);
    }

    /** The loop, for as long as the environment supplies turns or until a publish fails: it is
        the timer's loop under those wake-ups, whatever is registered meanwhile, and puts one
        heartbeat on the channel for each send, hence at most one per elapsed period beyond the
        first, and exactly so many if nothing disturbs it and nothing is due. The registry sees
        only the calls of the others. `used` of the turns were taken. */
    method Run(wakes: seq<Wake>) returns (used: nat)
      requires manager.Valid() && period >= 1 && View() == T.Start(started, period)
      modifies this, channel, manager
      ensures used <= |wakes| && (used < |wakes| ==> phase.Quit?)
      ensures Looped(old(manager.history), old(channel.log), wakes[..used])
      ensures T.Inv(View()) && InTime(old(manager.history), |old(channel.log)|, wakes[..used])
    {
      NotYetLooped();
      assert wakes[..0] == [];
      used := Repeat(wakes, manager.history, channel.log);
      Counted(old(manager.history), old(channel.log), wakes[..used]);
    }

    /** The pass of wake-up `k`, after those before it. */
    method Round(wakes: seq<Wake>, k: nat, ghost history: seq<Call>, ghost log: seq<Frame>)
      requires k < |wakes| && Looped(history, log, wakes[..k]) && phase.Waiting?
      modifies this, channel, manager
      ensures Looped(history, log, wakes[..k + 1]) && !phase.Sending?
    {
      assert wakes[..k + 1] == wakes[..k] + [wakes[k]];
      Again(wakes[k], history, log, wakes[..k]);
    }

    method Repeat(wakes: seq<Wake>, ghost history: seq<Call>, ghost log: seq<Frame>) returns (used: nat)
      requires Looped(history, log, wakes[..0]) && phase.Waiting?
      modifies this, channel, manager
      ensures used <= |wakes| && (used < |wakes| ==> phase.Quit?) && Looped(history, log, wakes[..used])
    {
      used := 0;
      while used < |wakes| && phase.Waiting?
        invariant used <= |wakes| && !phase.Sending?
        invariant Looped(history, log, wakes[..used])
      {
        Round(wakes, used, history, log);
        used := used + 1;
      }
    }

    lemma NotYetLooped()
      requires manager.Valid() && View() == T.Start(started, period)
      ensures Looped(manager.history, channel.log, [])
    {
      assert manager.history + [] == manager.history && CallsDuring([]) == [];
      assert T.Sends([]) == 0;
    }

    lemma Counted(history: seq<Call>, log: seq<Frame>, wakes: seq<Wake>)
      requires Looped(history, log, wakes) && period >= 1
      ensures T.Inv(View()) && InTime(history, |log|, wakes)
    {
      var start := T.Start(started, period);
      var passes := Loop(start, wakes, Connected(manager.capacity, history, wakes));
      T.StartInv(started, period);
      T.RunInv(start, passes);
      T.SendsBounded(View());
      if Undisturbed(history, wakes) {
        CalmLoop(start, wakes, Connected(manager.capacity, history, wakes));
        T.SendsExactly(started, period, passes);
      }
    }
  }
}
