/** The connection task as the code runs it: an object whose loops update its queue, writer and
    receivers in place, sharing the registry object (node/connection/src/lib.rs, `start`,
    `start_read_loop`, `start_message_handler`, `handle_received`). Every turn is proved to be
    the corresponding step of the state machine in module Connection, and a whole run of the task a
    run of that machine, whatever the other tasks do to the registry and the channel meanwhile. */
module ConnectionTasks {
  import opened Wrappers
  import opened Protocol
  import opened ConnectionManagement
  import opened Schedules
  import C = Connection

  /** The sending half shared by the whole node. */
  class BroadcastChannel {
    const window: nat
    var log: seq<Frame>
    var open: bool

    constructor (window: nat)
      ensures this.window == window && Value() == C.Broadcast([], window, true)
    {
      this.window := window;
      log, open := [], true;
    }

    function Value(): C.Broadcast
      reads this
    {
      C.Broadcast(log, window, open)
    }

    method Send(frame: Frame)
      modifies this
      ensures Value() == old(Value()).(log := old(log) + [frame]) && C.Extends(Value(), old(Value()))
    {
      log := log + [frame];
    }

    /** The last sender goes away. */
    method Drop()
      modifies this
      ensures Value() == old(Value()).(open := false)
    {
      open := false;
    }
  }

  function CallsOf(pauses: seq<Meanwhile>): seq<Call> {
    if pauses == [] then [] else CallsOf(pauses[..|pauses| - 1]) + pauses[|pauses| - 1].calls
  }

  function PublishedIn(pauses: seq<Meanwhile>): seq<Frame> {
    if pauses == [] then [] else PublishedIn(pauses[..|pauses| - 1]) + pauses[|pauses| - 1].published
  }

  lemma PausesAppend(pauses: seq<Meanwhile>, m: Meanwhile, calls: seq<Call>, log: seq<Frame>)
    ensures calls + CallsOf(pauses) + m.calls == calls + CallsOf(pauses + [m])
    ensures log + PublishedIn(pauses) + m.published == log + PublishedIn(pauses + [m])
  {
    assert (pauses + [m])[..|pauses|] == pauses;
    assert calls + CallsOf(pauses) + m.calls == calls + (CallsOf(pauses) + m.calls);
    assert log + PublishedIn(pauses) + m.published == log + (PublishedIn(pauses) + m.published);
  }

  class ConnectionTask {
    const addr: SocketAddr
    const manager: ConnectionManager
    const channel: BroadcastChannel
    const maxPending: nat
    const subscribed: nat

    var phase: C.Phase
    var handler: C.Handler
    var senderAlive: bool
    var closed: bool
    var queue: seq<Frame>
    var cursor: nat
    var heloSent: bool
    var sent: seq<Frame>

    // history of the run
    var items: seq<C.Item>
    var handled: seq<Frame>
    var rejected: seq<Frame>
    var delivered: seq<int>
    var forwarded: seq<Frame>
    var answered: seq<Frame>
    var lagged: bool

    function View(): C.Conn
      reads this
    {
      C.Conn(phase, handler, senderAlive, closed,
             C.Inbox(maxPending, queue, items, handled, rejected),
             C.Feed(subscribed, cursor, delivered, forwarded, lagged),
             heloSent, sent, answered)
    }

    predicate Ready(e: C.Event)
      reads this, channel
    {
      C.Enabled(View(), e, channel.Value())
    }

    /** `start_connection`: create the queue, keep the subscription, spawn. */
    constructor (addr: SocketAddr, manager: ConnectionManager, maxPending: nat, channel: BroadcastChannel)
      ensures this.addr == addr && this.manager == manager && this.channel == channel
      ensures View() == C.Spawn(maxPending, channel.Value())
      ensures C.Inv(View(), channel.Value())
    {
      this.addr, this.manager, this.channel, this.maxPending := addr, manager, channel, maxPending;
      subscribed, cursor := |channel.log|, |channel.log|;
      phase, handler, senderAlive, closed := C.Opening, C.FRESH, true, false;
      queue, heloSent, sent := [], false, [];
      items, handled, rejected, delivered, forwarded, answered, lagged := [], [], [], [], [], [], false;
      new;
      C.SpawnInv(maxPending, channel.Value());
    }

    method Register(now: int) returns (refused: bool)
      requires manager.Valid() && Ready(C.Register)
      modifies this, manager
      ensures manager.Valid() && refused == (|old(manager.sharedState)| >= manager.capacity)
      ensures View() == C.Next(old(View()), if refused then C.Refuse else C.Register, channel.Value())
      ensures manager.sharedState ==
              Apply(manager.capacity, old(manager.sharedState), Call.Insert(addr, Metadata(now)))
      ensures manager.history == old(manager.history) + [Call.Insert(addr, Metadata(now))]
    {
      var result := manager.Insert(addr, Metadata(now));
      refused := result.Err?;
      phase := if refused then C.Refused else C.Greeting;
    }

    method GreetAccept()
      requires Ready(C.GreetAccept)
      modifies this
      ensures View() == C.Next(old(View()), C.GreetAccept, channel.Value())
    {
      heloSent, sent := true, [HELO];
    }

    method EnterSelect(greeted: bool)
      requires Ready(if greeted then C.GreetDone else C.GreetFail)
      modifies this
      ensures View() == C.Next(old(View()), if greeted then C.GreetDone else C.GreetFail, channel.Value())
    {
      phase := C.Running;
    }

    method CloseWriter()
      requires Ready(C.WriterClosed)
      modifies this
      ensures View() == C.Next(old(View()), C.WriterClosed, channel.Value())
    {
      phase := C.Unregistering;
    }

    /** One pass of the read loop: take an item, queue its frame or return. */
    method ReadTurn(item: C.Item)
      requires Ready(C.Read(item))
      modifies this
      ensures View() == C.Next(old(View()), C.Read(item), channel.Value())
    {
      items := items + [item];
      if item.Data? {
        if closed || |queue| >= maxPending {
          rejected := [item.frame];
          Finish();
        } else {
          queue := queue + [item.frame];
        }
      } else {
        Finish();
      }
    }

    method Finish()
      modifies this
      ensures View() == C.Finish(old(View()))
    {
      phase, senderAlive, closed := C.Closing, false, true;
    }

    /** The queue branch of the inner select. */
    method QueueTurn()
      requires Ready(C.TakeQueue)
      modifies this
      ensures View() == C.Next(old(View()), C.TakeQueue, channel.Value())
    {
      if queue != [] {
        var frame := queue[0];
        queue := queue[1..];
        HandleReceived(frame);
      } else if handler.broadcastOn {
        handler := C.Selecting(false, true);
      } else {
        phase := C.Panicked;
      }
    }

    /** `handle_received` up to the point where it awaits the sink. */
    method HandleReceived(frame: Frame)
      modifies this
      ensures View() == C.Handle(old(View()), frame)
    {
      match React(frame)
      case Close =>
        handler := C.Stopped(frame);
        Finish();
      case Silent =>
        handled := handled + [frame];
        handler := C.FRESH;
      case Answer(reply) =>
        handler := C.Replying(frame, reply, false);
    }

    /** The broadcast branch of the inner select. */
    method BroadcastTurn()
      requires Ready(C.TakeBroadcast)
      modifies this
      ensures View() == C.Next(old(View()), C.TakeBroadcast, channel.Value())
    {
      if cursor + channel.window < |channel.log| {
        cursor, lagged := |channel.log| - channel.window, true;
      } else if cursor < |channel.log| {
        handler := C.Forwarding(channel.log[cursor], false);
        cursor := cursor + 1;
        return;
      }
      if handler.queueOn {
        handler := C.Selecting(true, false);
      } else {
        phase := C.Panicked;
      }
    }

    /** The sink takes the frame being sent. */
    method SinkAccept()
      requires Ready(C.SinkAccept)
      modifies this
      ensures View() == C.Next(old(View()), C.SinkAccept, channel.Value())
    {
      match handler
      case Replying(frame, reply, _) =>
        sent, answered, handler := sent + [reply], answered + [reply], C.Replying(frame, reply, true);
      case Forwarding(frame, _) =>
        sent, forwarded, delivered := sent + [frame], forwarded + [frame], delivered + [cursor - 1];
        handler := C.Forwarding(frame, true);
    }

    /** The sink has flushed it, and the handler's loop comes round. */
    method SinkDone()
      requires Ready(C.SinkDone)
      modifies this
      ensures View() == C.Next(old(View()), C.SinkDone, channel.Value())
    {
      if handler.Replying? {
        handled := handled + [handler.frame];
      }
      handler := C.FRESH;
    }

    method Unregister()
      requires manager.Valid() && Ready(C.Unregister)
      modifies this, manager
      ensures manager.Valid() && manager.sharedState == old(manager.sharedState) - {addr}
      ensures manager.history == old(manager.history) + [Call.Remove(addr)]
      ensures View() == C.Next(old(View()), C.Unregister, channel.Value())
    {
      var _ := manager.Remove(addr);
      phase := C.Done;
    }

    /** One wake-up of the outer select: the chosen future is polled, and takes its turn whenever
        it can move. The reader always can; the queue branch if it is enabled and the queue has a
        frame or is closed; the broadcast branch if it is enabled and the channel has an entry or
        is closed; the sink while something is being sent. */
    method Poll(choice: Choice, item: C.Item) returns (ghost turn: Option<C.Event>)
      requires phase.Running?
      modifies this
      ensures turn.None? ==> View() == old(View())
      ensures turn.Some? ==> C.Enabled(old(View()), turn.value, channel.Value())
      ensures turn.Some? ==> View() == C.Next(old(View()), turn.value, channel.Value())
      ensures choice.PollReader? ==> turn == Some(C.Read(item))
      ensures turn.Some? && turn.value.Read? ==> turn.value.item == item
      ensures choice.PollQueue? ==>
                turn == if old(handler.Selecting? && handler.queueOn && (queue != [] || closed || !senderAlive))
                        then Some(C.TakeQueue) else None
      ensures choice.PollBroadcast? ==>
                turn == if old(handler.Selecting? && handler.broadcastOn && (cursor < |channel.log| || !channel.open))
                        then Some(C.TakeBroadcast) else None
      ensures choice.SinkReady? ==>
                turn == if old(handler.Replying? || handler.Forwarding?)
                        then Some(if old(handler.accepted) then C.SinkDone else C.SinkAccept) else None
      ensures choice.SinkBroken? ==>
                turn == if old(handler.Replying? || handler.Forwarding?) then Some(C.SinkFail) else None
      ensures View() == AfterPoll(old(View()), channel.Value(), choice, item)
    {
      turn := None;
      match choice
      case PollReader =>
        ReadTurn(item);
        turn := Some(C.Read(item));
      case PollQueue =>
        if Ready(C.TakeQueue) {
          QueueTurn();
          turn := Some(C.TakeQueue);
        }
      case PollBroadcast =>
        if Ready(C.TakeBroadcast) {
          BroadcastTurn();
          turn := Some(C.TakeBroadcast);
        }
      case SinkReady =>
        if Ready(C.SinkAccept) {
          SinkAccept();
          turn := Some(C.SinkAccept);
        } else if Ready(C.SinkDone) {
          SinkDone();
          turn := Some(C.SinkDone);
        }
      case SinkBroken =>
        if Ready(C.SinkFail) {
          Finish();
          turn := Some(C.SinkFail);
        }
    }

    /** The task got here from its spawning on channel `ch` by the moves of `trace`, reading from
        `stream`. */
    ghost predicate Consistent(trace: seq<C.Move>, ch: C.Broadcast, stream: seq<C.Item>)
      reads this, channel
    {
      && C.ChannelAfter(ch, trace) == channel.Value()
      && C.Follow(C.Spawn(maxPending, ch), trace, ch) == Some(View())
      && C.Consumes(items, stream)
    }

    lemma Advance(before: C.Conn, trace: seq<C.Move>, ch: C.Broadcast, stream: seq<C.Item>, e: C.Event)
      requires C.ChannelAfter(ch, trace) == channel.Value()
      requires C.Follow(C.Spawn(maxPending, ch), trace, ch) == Some(before)
      requires C.Consumes(before.inbox.items, stream)
      requires C.Enabled(before, e, channel.Value()) && View() == C.Next(before, e, channel.Value())
      requires e.Read? ==> e.item == NextItem(before.inbox.items, stream)
      ensures Consistent(trace + [C.Turn(e)], ch, stream)
    {
      C.FollowTurn(C.Spawn(maxPending, ch), trace, ch, e);
      C.NextItems(before, e, channel.Value());
    }

    method Publish(frame: Frame, ghost before: seq<C.Move>, ghost ch: C.Broadcast, ghost stream: seq<C.Item>)
      returns (ghost trace: seq<C.Move>)
      requires Consistent(before, ch, stream)
      modifies channel
      ensures Consistent(trace, ch, stream) && channel.log == old(channel.log) + [frame]
      ensures channel.open == old(channel.open)
    {
      C.FollowOther(C.Spawn(maxPending, ch), before, ch, C.Published(frame));
      trace := before + [C.Published(frame)];
      channel.Send(frame);
    }

    method PublishAll(frames: seq<Frame>, ghost before: seq<C.Move>, ghost ch: C.Broadcast, ghost stream: seq<C.Item>)
      returns (ghost trace: seq<C.Move>)
      requires Consistent(before, ch, stream)
      modifies channel
      ensures Consistent(trace, ch, stream) && channel.log == old(channel.log) + frames
      ensures channel.open == old(channel.open)
    {
      trace := before;
      for i := 0 to |frames|
        invariant Consistent(trace, ch, stream) && channel.log == old(channel.log) + frames[..i]
        invariant channel.open == old(channel.open)
      {
        trace := Publish(frames[i], trace, ch, stream);
        assert frames[..i + 1] == frames[..i] + [frames[i]];
      }
      assert frames[..|frames|] == frames;
    }

    /** Wait, while the others do what `m` says. */
    method Wait(m: Meanwhile, ghost before: seq<C.Move>, ghost ch: C.Broadcast, ghost stream: seq<C.Item>)
      returns (ghost trace: seq<C.Move>)
      requires manager.Valid() && Consistent(before, ch, stream)
      modifies channel, manager
      ensures manager.Valid() && manager.history == old(manager.history) + m.calls
      ensures Consistent(trace, ch, stream) && channel.log == old(channel.log) + m.published
      ensures channel.Value() == During(old(channel.Value()), m)
    {
      trace := PublishAll(m.published, before, ch, stream);
      if m.dropped {
        C.FollowOther(C.Spawn(maxPending, ch), trace, ch, C.Dropped);
        trace := trace + [C.Dropped];
        channel.Drop();
      }
      manager.PerformAll(m.calls);
    }

    /** The opening send: if the sink takes it the peer gets `helo`, and nothing if it does not.
        Whether flushing it then works is ignored, as is the whole result. */
    method Greet(greets: bool, flushes: bool, m: Meanwhile, ghost before: seq<C.Move>, ghost ch: C.Broadcast,
                 ghost stream: seq<C.Item>)
      returns (ghost trace: seq<C.Move>)
      requires manager.Valid() && phase.Greeting? && !heloSent && Consistent(before, ch, stream)
      modifies this, channel, manager
      ensures manager.Valid() && manager.history == old(manager.history) + m.calls
      ensures Consistent(trace, ch, stream) && channel.log == old(channel.log) + m.published
      ensures phase.Running? && items == old(items)
      ensures heloSent == greets && (greets ==> sent == [HELO]) && (!greets ==> sent == old(sent))
      ensures View() == old(View()).(phase := C.Running, heloSent := heloSent, sent := sent)
      ensures channel.Value() == During(old(channel.Value()), m)
    {
      ghost var c := View();
      trace := before;
      if greets {
        GreetAccept();
        Advance(c, trace, ch, stream, C.GreetAccept);
        trace := trace + [C.Turn(C.GreetAccept)];
      }
      trace := Wait(m, trace, ch, stream);
      c := View();
      EnterSelect(greets && flushes);
      ghost var e := if greets && flushes then C.GreetDone else C.GreetFail;
      Advance(c, trace, ch, stream, e);
      trace := trace + [C.Turn(e)];
    }

    /** One wake-up of the outer select. */
    method Wake(choice: Choice, item: C.Item, ghost before: seq<C.Move>, ghost ch: C.Broadcast,
                ghost stream: seq<C.Item>)
      returns (ghost trace: seq<C.Move>)
      requires phase.Running? && |items| <= |stream| && Consistent(before, ch, stream)
      requires item == NextItem(items, stream)
      modifies this
      ensures Consistent(trace, ch, stream)
      ensures phase.Closing? || (phase.Running? && |items| <= |stream|)
      ensures |items| >= |old(items)|
      ensures choice.PollReader? && phase.Running? ==> |items| > |old(items)|
      ensures View() == AfterPoll(old(View()), channel.Value(), choice, item)
    {
      ghost var c := View();
      ghost var turn := Poll(choice, item);
      trace := before;
      if turn.Some? {
        Advance(c, trace, ch, stream, turn.value);
        trace := trace + [C.Turn(turn.value)];
        C.RunningTurn(c, turn.value, channel.Value());
        C.RunNeverPanics(maxPending, trace, ch);
      }
    }

    /** Since the registry had history `calls` and the channel log `log`, the others have done
        what `pauses` says, and nobody anything else. */
    ghost predicate Since(calls: seq<Call>, log: seq<Frame>, pauses: seq<Meanwhile>)
      reads channel, manager
    {
      && manager.Valid() && manager.history == calls + CallsOf(pauses)
      && channel.log == log + PublishedIn(pauses)
    }

    /** A wake-up of the schedule, after what the others did meanwhile. */
    method Round(w: Wakeup, stream: seq<C.Item>, ghost before: seq<C.Move>, ghost ch: C.Broadcast,
                 ghost calls: seq<Call>, ghost log: seq<Frame>, ghost pauses: seq<Meanwhile>)
      returns (ghost trace: seq<C.Move>)
      requires Since(calls, log, pauses)
      requires phase.Running? && |items| <= |stream| && Consistent(before, ch, stream)
      modifies this, channel, manager
      ensures Since(calls, log, pauses + [w.meanwhile]) && Consistent(trace, ch, stream)
      ensures phase.Closing? || (phase.Running? && |items| <= |stream|)
      ensures channel.Value() == During(old(channel.Value()), w.meanwhile)
      ensures View() == AfterPoll(old(View()), channel.Value(), w.choice, NextItem(old(items), stream))
    {
      trace := Wait(w.meanwhile, before, ch, stream);
      PausesAppend(pauses, w.meanwhile, calls, log);
      trace := Wake(w.choice, NextItem(items, stream), trace, ch, stream);
    }

    /** The schedule has run out: poll the reader until a loop returns. */
    method Drain(stream: seq<C.Item>, ghost before: seq<C.Move>, ghost ch: C.Broadcast)
      returns (ghost trace: seq<C.Move>)
      requires phase.Closing? || (phase.Running? && |items| <= |stream|)
      requires Consistent(before, ch, stream)
      modifies this
      ensures Consistent(trace, ch, stream) && phase.Closing?
      ensures View() == Drained(old(View()), stream)
    {
      trace := before;
      ghost var start := View();
      while phase.Running?
        invariant Consistent(trace, ch, stream)
        invariant phase.Closing? || (phase.Running? && |items| <= |stream|)
        invariant Drained(View(), stream) == Drained(start, stream)
        decreases phase.Running?, |stream| - |items|
      {
        trace := Wake(PollReader, NextItem(items, stream), trace, ch, stream);
      }
    }

    /** The outer select: poll the two loops in the order `schedule` dictates, and the reader
        once it runs out, until one of them returns. `pauses` are the pauses it went through. */
    method Serve(stream: seq<C.Item>, schedule: seq<Wakeup>, ghost before: seq<C.Move>, ghost ch: C.Broadcast)
      returns (ghost trace: seq<C.Move>, ghost pauses: seq<Meanwhile>)
      requires manager.Valid() && phase.Running? && |items| <= |stream| && Consistent(before, ch, stream)
      modifies this, channel, manager
      ensures Since(old(manager.history), old(channel.log), pauses) && Consistent(trace, ch, stream)
      ensures phase.Closing? && IsPrefix(pauses, schedule)
      ensures View() == Served(old(View()), old(channel.Value()), schedule, stream)
    {
      trace, pauses := before, [];
      ghost var served := Served(View(), channel.Value(), schedule, stream);
      var k := 0;
      assert schedule[0..] == schedule;
      while k < |schedule| && phase.Running?
        invariant k <= |schedule| && |pauses| == k && IsPrefix(pauses, schedule)
        invariant Since(old(manager.history), old(channel.log), pauses) && Consistent(trace, ch, stream)
        invariant phase.Closing? || (phase.Running? && |items| <= |stream|)
        invariant Served(View(), channel.Value(), schedule[k..], stream) == served
      {
        assert schedule[k..][0] == schedule[k] && schedule[k..][1..] == schedule[k + 1..];
        trace := Round(schedule[k], stream, trace, ch, old(manager.history), old(channel.log), pauses);
        pauses, k := pauses + [schedule[k].meanwhile], k + 1;
      }
      trace := Drain(stream, trace, ch);
    }

    /** Close the writer, then leave the registry. */
    method CleanUp(m: Meanwhile, ghost before: seq<C.Move>, ghost ch: C.Broadcast, ghost stream: seq<C.Item>)
      returns (ghost trace: seq<C.Move>)
      requires manager.Valid() && phase.Closing? && Consistent(before, ch, stream)
      modifies this, channel, manager
      ensures manager.Valid() && manager.history == old(manager.history) + m.calls + [Call.Remove(addr)]
      ensures addr !in manager.sharedState && channel.log == old(channel.log) + m.published
      ensures Consistent(trace, ch, stream) && View() == old(View()).(phase := C.Done)
    {
      trace := Wait(m, before, ch, stream);
      ghost var c := View();
      CloseWriter();
      Advance(c, trace, ch, stream, C.WriterClosed);
      trace := Leave(trace + [C.Turn(C.WriterClosed)], ch, stream);
    }

    method Leave(ghost before: seq<C.Move>, ghost ch: C.Broadcast, ghost stream: seq<C.Item>)
      returns (ghost trace: seq<C.Move>)
      requires manager.Valid() && phase.Unregistering? && Consistent(before, ch, stream)
      modifies this, manager
      ensures manager.Valid() && manager.history == old(manager.history) + [Call.Remove(addr)]
      ensures addr !in manager.sharedState
      ensures Consistent(trace, ch, stream) && View() == old(View()).(phase := C.Done)
    {
      ghost var c := View();
      Unregister();
      Advance(c, before, ch, stream, C.Unregister);
      trace := before + [C.Turn(C.Unregister)];
    }

    /** `start` up to the registry's answer. */
    method Enter(now: int, ghost stream: seq<C.Item>) returns (refused: bool, ghost trace: seq<C.Move>)
      requires manager.Valid() && View() == C.Spawn(maxPending, channel.Value())
      modifies this, manager
      ensures manager.Valid() && refused == (|old(manager.sharedState)| >= manager.capacity)
      ensures manager.history == old(manager.history) + [Call.Insert(addr, Metadata(now))]
      ensures refused ==> manager.sharedState == old(manager.sharedState)
      ensures View() == C.Spawn(maxPending, channel.Value()).(phase := if refused then C.Refused else C.Greeting)
      ensures Consistent(trace, channel.Value(), stream)
    {
      ghost var start := View();
      refused := Register(now);
      ghost var e := if refused then C.Refuse else C.Register;
      Advance(start, [], channel.Value(), stream, e);
      trace := [] + [C.Turn(e)];
    }

    /** The pauses are those of the first wake-ups of the schedule. */
    static ghost predicate IsPrefix(pauses: seq<Meanwhile>, schedule: seq<Wakeup>) {
      |pauses| <= |schedule| && forall i :: 0 <= i < |pauses| ==> pauses[i] == schedule[i].meanwhile
    }

    /** The whole task: register or return; greet; serve until a loop returns; clean up. It
        always ends, whatever the schedule and whatever the others publish and register
        meanwhile. Its own mark on the registry is one insert and, unless that was refused, one
        removal as its last act, which leaves its address absent; it publishes nothing. It reads
        at most one item more than the stream holds, and ends in the state its trace leads to,
        which is the outcome of its schedule: if the opening send is taken its output begins with
        `helo`, and if its reader, queue and sink are polled in turn it handles every frame up to
        the first that cannot be handled, and replies to each that calls for it. */
    method Start(stream: seq<C.Item>, schedule: seq<Wakeup>, greets: bool, flushes: bool, greeting: Meanwhile,
                 closing: Meanwhile, now: int)
      returns (ghost trace: seq<C.Move>, ghost pauses: seq<Meanwhile>)
      requires manager.Valid() && View() == C.Spawn(maxPending, channel.Value())
      modifies this, channel, manager
      ensures manager.Valid() && Consistent(trace, old(channel.Value()), stream) && IsPrefix(pauses, schedule)
      ensures |old(manager.sharedState)| >= manager.capacity ==>
                && phase == C.Refused && manager.sharedState == old(manager.sharedState)
                && channel.Value() == old(channel.Value())
      ensures |old(manager.sharedState)| < manager.capacity ==>
                && phase == C.Done && addr !in manager.sharedState
                && manager.history == old(manager.history) + [Call.Insert(addr, Metadata(now))]
                   + greeting.calls + CallsOf(pauses) + closing.calls + [Call.Remove(addr)]
                && channel.log == old(channel.log) + greeting.published + PublishedIn(pauses) + closing.published
      ensures |old(manager.sharedState)| < manager.capacity ==>
                && View() == Outcome(maxPending, old(channel.Value()), greets, greeting, schedule, stream)
                && heloSent == greets && (greets ==> sent != [] && sent[0] == HELO)
                && (maxPending >= 1 && InTurn(schedule) && |schedule| >= 4 * |stream| ==>
                      && handled == Handleable(stream) && answered == Replies(handled)
                      && sent == (if greets then [HELO] else []) + answered)
      ensures |items| <= |stream| + 1 && handled <= C.FramesOf(stream)
    {
      ghost var ch := channel.Value();
      var refused;
      refused, trace := Enter(now, stream);
      pauses := [];
      if !refused {
        trace := Greet(greets, flushes, greeting, trace, ch, stream);
        trace, pauses := Serve(stream, schedule, trace, ch);
        trace := CleanUp(closing, trace, ch, stream);
        OutcomeGreets(maxPending, ch, greets, greeting, schedule, stream);
        if maxPending >= 1 && InTurn(schedule) && |schedule| >= 4 * |stream| {
          EveryFrameHandled(maxPending, ch, greets, greeting, schedule, stream);
        }
      }
      C.RunBounded(maxPending, trace, ch, stream);
    }
  }
}
