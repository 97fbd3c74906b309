/** What a connection task makes of a schedule: which of its futures is polled next, and what the
    other tasks of its node do meanwhile (node/connection/src/lib.rs, `start`). */
module Schedules {
  import opened Wrappers
  import opened Protocol
  import opened ConnectionManagement
  import C = Connection

  /** Which future the executor polls next, and how the sink answers. */
  datatype Choice = PollReader | PollQueue | PollBroadcast | SinkReady | SinkBroken

  /** What the other tasks of the node do while this one waits: publish, call the registry, and
      possibly drop the last sender. */
  datatype Meanwhile = Meanwhile(published: seq<Frame>, calls: seq<Call>, dropped: bool)

  datatype Wakeup = Wakeup(meanwhile: Meanwhile, choice: Choice)

  function During(ch: C.Broadcast, m: Meanwhile): C.Broadcast {
    ch.(log := ch.log + m.published, open := ch.open && !m.dropped)
  }

  /** What the reader yields next. */
  function NextItem(items: seq<C.Item>, stream: seq<C.Item>): C.Item {
    if |items| < |stream| then stream[|items|] else C.Eof
  }

  /** The turn the chosen future takes, if it can move. */
  function Polled(c: C.Conn, ch: C.Broadcast, choice: Choice, item: C.Item): (turn: Option<C.Event>)
    requires c.phase.Running?
    ensures turn.Some? ==> C.Enabled(c, turn.value, ch)
  {
    match choice
    case PollReader => Some(C.Read(item))
    case PollQueue => if C.ReceiveReady(c) then Some(C.TakeQueue) else None
    case PollBroadcast => if C.ReceiveBroadcastReady(c, ch) then Some(C.TakeBroadcast) else None
    case SinkReady =>
      if C.Sending(c.handler, false) then Some(C.SinkAccept)
      else if C.Sending(c.handler, true) then Some(C.SinkDone)
      else None
    case SinkBroken => if c.handler.Replying? || c.handler.Forwarding? then Some(C.SinkFail) else None
  }

  function AfterPoll(c: C.Conn, ch: C.Broadcast, choice: Choice, item: C.Item): C.Conn
    requires c.phase.Running?
  {
    var turn := Polled(c, ch, choice, item);
    if turn.Some? then C.Next(c, turn.value, ch) else c
  }

  /** The reader takes one item when it is polled, and nothing is taken otherwise. */
  lemma PollReads(c: C.Conn, ch: C.Broadcast, choice: Choice, item: C.Item)
    requires c.phase.Running?
    ensures var d := AfterPoll(c, ch, choice, item);
            && d.inbox.items == c.inbox.items + (if choice.PollReader? then [item] else [])
            && (choice.PollReader? && !item.Data? ==> !d.phase.Running?)
  {
    var turn := Polled(c, ch, choice, item);
    if turn.Some? {
      C.NextItems(c, turn.value, ch);
      C.RunningTurn(c, turn.value, ch);
    } else {
      assert c.inbox.items + [] == c.inbox.items;
    }
  }

  /** The reader is polled until the select is over. */
  function Drained(c: C.Conn, stream: seq<C.Item>): C.Conn
    requires c.phase.Running? ==> |c.inbox.items| <= |stream|
    decreases if c.phase.Running? then |stream| + 1 - |c.inbox.items| else 0
  {
    if c.phase.Running? then Drained(C.ReadItem(c, NextItem(c.inbox.items, stream)), stream) else c
  }

  /** The select under a schedule, and under the reader alone once that has run out. */
  function Served(c: C.Conn, ch: C.Broadcast, schedule: seq<Wakeup>, stream: seq<C.Item>): C.Conn
    requires c.phase.Running? ==> |c.inbox.items| <= |stream|
    decreases |schedule|
  {
    if !c.phase.Running? then c
    else if schedule == [] then Drained(c, stream)
    else
      var now, choice, item := During(ch, schedule[0].meanwhile), schedule[0].choice, NextItem(c.inbox.items, stream);
      PollReads(c, now, choice, item);
      Served(AfterPoll(c, now, choice, item), now, schedule[1..], stream)
  }

  lemma ServedStep(c: C.Conn, ch: C.Broadcast, schedule: seq<Wakeup>, stream: seq<C.Item>)
    returns (d: C.Conn, now: C.Broadcast)
    requires c.phase.Running? && |c.inbox.items| <= |stream| && schedule != []
    ensures now == During(ch, schedule[0].meanwhile)
    ensures d == AfterPoll(c, now, schedule[0].choice, NextItem(c.inbox.items, stream))
    ensures d.phase.Running? ==> |d.inbox.items| <= |stream|
    ensures Served(c, ch, schedule, stream) == Served(d, now, schedule[1..], stream)
  {
    now := During(ch, schedule[0].meanwhile);
    d := AfterPoll(c, now, schedule[0].choice, NextItem(c.inbox.items, stream));
    PollReads(c, now, schedule[0].choice, NextItem(c.inbox.items, stream));
  }

  /** A task just past its greeting. */
  function Entered(maxPending: nat, ch: C.Broadcast, greets: bool): C.Conn {
    C.Spawn(maxPending, ch).(phase := C.Running, heloSent := greets, sent := if greets then [HELO] else [])
  }

  /** What a task that was registered is in the end. */
  function Outcome(maxPending: nat, ch: C.Broadcast, greets: bool, greeting: Meanwhile, schedule: seq<Wakeup>,
                   stream: seq<C.Item>): C.Conn
  {
    Served(Entered(maxPending, ch, greets), During(ch, greeting), schedule, stream).(phase := C.Done)
  }

  // ---------------------------------------------------------------- what is left alone

  lemma {:induction false} DrainedKeeps(c: C.Conn, stream: seq<C.Item>)
    requires c.phase.Running? ==> |c.inbox.items| <= |stream|
    ensures var d := Drained(c, stream);
            && d.heloSent == c.heloSent && d.sent == c.sent && d.answered == c.answered
            && d.feed == c.feed && d.inbox.handled == c.inbox.handled && !d.phase.Running?
    decreases if c.phase.Running? then |stream| + 1 - |c.inbox.items| else 0
  {
    if c.phase.Running? {
      DrainedKeeps(C.ReadItem(c, NextItem(c.inbox.items, stream)), stream);
    }
  }

  lemma PollKeepsGreeting(c: C.Conn, ch: C.Broadcast, choice: Choice, item: C.Item)
    requires c.phase.Running?
    ensures AfterPoll(c, ch, choice, item).heloSent == c.heloSent
    ensures c.sent <= AfterPoll(c, ch, choice, item).sent
  {
    var turn := Polled(c, ch, choice, item);
    if turn.Some? {
      C.OutputSent(c, turn.value, ch);
    }
  }

  /** What was sent before the select stays the beginning of what is sent. */
  lemma {:induction false} ServedKeepsGreeting(c: C.Conn, ch: C.Broadcast, schedule: seq<Wakeup>, stream: seq<C.Item>)
    requires c.phase.Running? ==> |c.inbox.items| <= |stream|
    ensures var d := Served(c, ch, schedule, stream); d.heloSent == c.heloSent && c.sent <= d.sent
    decreases |schedule|
  {
    if c.phase.Running? && schedule == [] {
      DrainedKeeps(c, stream);
    } else if c.phase.Running? {
      var d, now := ServedStep(c, ch, schedule, stream);
      PollKeepsGreeting(c, now, schedule[0].choice, NextItem(c.inbox.items, stream));
      ServedKeepsGreeting(d, now, schedule[1..], stream);
    }
  }

  /** A task whose opening send is taken begins its output with it. */
  lemma OutcomeGreets(maxPending: nat, ch: C.Broadcast, greets: bool, greeting: Meanwhile,
                      schedule: seq<Wakeup>, stream: seq<C.Item>)
    ensures var d := Outcome(maxPending, ch, greets, greeting, schedule, stream);
            d.heloSent == greets && (greets ==> d.sent != [] && d.sent[0] == HELO)
  {
    ServedKeepsGreeting(Entered(maxPending, ch, greets), During(ch, greeting), schedule, stream);
  }

  // ---------------------------------------------------------------- every frame is handled

  /** Reader, queue and sink are polled in turn, the sink twice for each frame: it accepts the
      reply, and then flushes it. */
  ghost predicate InTurn(schedule: seq<Wakeup>) {
    forall k :: 0 <= k < |schedule| ==>
      schedule[k].choice == (if k % 4 == 0 then PollReader else if k % 4 == 1 then PollQueue else SinkReady)
  }

  /** The frames of a stream up to the first that cannot be handled, or the first failed read. */
  function Handleable(stream: seq<C.Item>): seq<Frame> {
    if stream == [] || !stream[0].Data? || React(stream[0].frame).Close? then []
    else [stream[0].frame] + Handleable(stream[1..])
  }

  /** The task waits in its select with nothing queued, having replied to all it handled. */
  ghost predicate Idle(c: C.Conn, greeting: seq<Frame>) {
    && c.phase.Running? && c.handler == C.FRESH && !c.closed
    && c.inbox.queue == [] && c.inbox.maxPending >= 1
    && Replied(c, greeting)
  }

  ghost predicate Replied(c: C.Conn, greeting: seq<Frame>) {
    c.answered == Replies(c.inbox.handled) && c.sent == greeting + c.answered
  }

  /** A frame has been read and waits in the queue. */
  ghost predicate Holding(c: C.Conn, f: Frame, before: C.Conn) {
    && c.phase.Running? && c.handler == C.FRESH && !c.closed && c.inbox.queue == [f]
    && c.inbox.maxPending == before.inbox.maxPending && c.inbox.handled == before.inbox.handled
    && c.answered == before.answered && c.sent == before.sent
  }

  lemma ReadsOne(c: C.Conn, ch: C.Broadcast, item: C.Item, greeting: seq<Frame>)
    requires Idle(c, greeting)
    ensures var d := AfterPoll(c, ch, PollReader, item);
            && (item.Data? ==> Holding(d, item.frame, c) && d.inbox.items == c.inbox.items + [item])
            && (!item.Data? ==> !d.phase.Running? && d.inbox.handled == c.inbox.handled && Replied(d, greeting))
  {
  }

  lemma TakesOne(c: C.Conn, ch: C.Broadcast, item: C.Item, f: Frame, before: C.Conn, greeting: seq<Frame>)
    requires Holding(c, f, before) && Idle(before, greeting)
    ensures var d, r := AfterPoll(c, ch, PollQueue, item), React(f);
            && d.inbox.items == c.inbox.items
            && (r.Close? ==> !d.phase.Running? && d.inbox.handled == before.inbox.handled && Replied(d, greeting))
            && (r.Silent? ==> Idle(d, greeting) && d.inbox.handled == before.inbox.handled + [f])
            && (r.Answer? ==>
                  && d == c.(handler := C.Replying(f, r.reply, false), inbox := c.inbox.(queue := [])))
  {
    RepliesAppend(before.inbox.handled, f);
  }

  lemma AcceptsReply(c: C.Conn, ch: C.Broadcast, item: C.Item)
    requires c.phase.Running? && c.handler.Replying? && !c.handler.accepted
    ensures AfterPoll(c, ch, SinkReady, item) ==
            c.(sent := c.sent + [c.handler.reply], answered := c.answered + [c.handler.reply],
               handler := C.Replying(c.handler.frame, c.handler.reply, true))
  {
  }

  lemma FlushesReply(c: C.Conn, ch: C.Broadcast, item: C.Item)
    requires c.phase.Running? && c.handler.Replying? && c.handler.accepted
    ensures AfterPoll(c, ch, SinkReady, item) ==
            c.(inbox := c.inbox.(handled := c.inbox.handled + [c.handler.frame]), handler := C.FRESH)
  {
  }

  /** The sink accepts the reply and then flushes it. */
  lemma RepliesOne(c: C.Conn, ch: C.Broadcast, later: C.Broadcast, item: C.Item, f: Frame, before: C.Conn,
                   greeting: seq<Frame>)
    requires Holding(c, f, before) && Idle(before, greeting) && React(f).Answer?
    ensures var taken := c.(handler := C.Replying(f, React(f).reply, false), inbox := c.inbox.(queue := []));
            var accepted := AfterPoll(taken, ch, SinkReady, item);
            && accepted.phase.Running? && accepted.inbox == taken.inbox
            && var d := AfterPoll(accepted, later, SinkReady, item);
               && Idle(d, greeting) && d.inbox.items == c.inbox.items
               && d.inbox.handled == before.inbox.handled + [f]
  {
    var r := React(f).reply;
    var taken := c.(handler := C.Replying(f, r, false), inbox := c.inbox.(queue := []));
    AcceptsReply(taken, ch, item);
    FlushesReply(AfterPoll(taken, ch, SinkReady, item), later, item);
    RepliesAppend(before.inbox.handled, f);
    assert greeting + before.answered + [r] == greeting + (before.answered + [r]);
  }

  lemma SinkIdles(c: C.Conn, ch: C.Broadcast, item: C.Item)
    requires c.phase.Running? && c.handler == C.FRESH
    ensures AfterPoll(c, ch, SinkReady, item) == c
  {
  }

  /** Four polls deal with one item. */
  lemma OneRound(c: C.Conn, ch: C.Broadcast, schedule: seq<Wakeup>, stream: seq<C.Item>, greeting: seq<Frame>)
    returns (d: C.Conn, now: C.Broadcast)
    requires Idle(c, greeting) && |c.inbox.items| < |stream| && InTurn(schedule) && |schedule| >= 4
    ensures d.phase.Running? ==> |d.inbox.items| <= |stream|
    ensures Served(c, ch, schedule, stream) == Served(d, now, schedule[4..], stream)
    ensures var item := stream[|c.inbox.items|];
            if !item.Data? || React(item.frame).Close? then
              !d.phase.Running? && d.inbox.handled == c.inbox.handled && Replied(d, greeting)
            else
              && Idle(d, greeting) && d.inbox.handled == c.inbox.handled + [item.frame]
              && d.inbox.items == c.inbox.items + [item]
  {
    var item := stream[|c.inbox.items|];
    assert schedule[0].choice == PollReader && schedule[1..][0].choice == PollQueue;
    assert schedule[1..][1..] == schedule[2..] && schedule[2..][1..] == schedule[3..];
    assert schedule[3..][1..] == schedule[4..];
    assert schedule[2..][0].choice == SinkReady && schedule[3..][0].choice == SinkReady;
    d, now := ServedStep(c, ch, schedule, stream);
    ReadsOne(c, now, item, greeting);
    if item.Data? {
      var read, next := d, NextItem(d.inbox.items, stream);
      d, now := ServedStep(read, now, schedule[1..], stream);
      TakesOne(read, now, next, item.frame, c, greeting);
      if !React(item.frame).Close? {
        var taken, at := d, now;
        d, now := ServedStep(taken, at, schedule[2..], stream);
        if React(item.frame).Silent? {
          SinkIdles(taken, now, next);
          d, now := ServedStep(taken, now, schedule[3..], stream);
          SinkIdles(taken, now, next);
        } else {
          RepliesOne(read, now, During(now, schedule[3..][0].meanwhile), next, item.frame, c, greeting);
          d, now := ServedStep(d, now, schedule[3..], stream);
        }
      }
    }
  }

  lemma InTurnTail(schedule: seq<Wakeup>)
    requires InTurn(schedule) && |schedule| >= 4
    ensures InTurn(schedule[4..])
  {
    forall j | 0 <= j < |schedule[4..]|
      ensures schedule[4..][j].choice ==
              (if j % 4 == 0 then PollReader else if j % 4 == 1 then PollQueue else SinkReady)
    {
      assert schedule[4..][j] == schedule[j + 4] && (j + 4) % 4 == j % 4;
    }
  }

  lemma {:induction false} ServedInTurn(c: C.Conn, ch: C.Broadcast, schedule: seq<Wakeup>, stream: seq<C.Item>,
                                        greeting: seq<Frame>)
    requires Idle(c, greeting) && |c.inbox.items| <= |stream|
    requires InTurn(schedule) && |schedule| >= 4 * (|stream| - |c.inbox.items|)
    ensures var d := Served(c, ch, schedule, stream);
            && d.inbox.handled == c.inbox.handled + Handleable(stream[|c.inbox.items|..]) && Replied(d, greeting)
    decreases |stream| - |c.inbox.items|
  {
    var k := |c.inbox.items|;
    if k == |stream| {
      NothingLeft(c, ch, schedule, stream, greeting);
    } else {
      var d, now := OneRound(c, ch, schedule, stream, greeting);
      assert stream[k..][1..] == stream[k + 1..] && stream[k..][0] == stream[k];
      if d.phase.Running? {
        InTurnTail(schedule);
        ServedInTurn(d, now, schedule[4..], stream, greeting);
      }
    }
  }

  /** At the end of the stream the next poll of the reader ends the select. */
  lemma NothingLeft(c: C.Conn, ch: C.Broadcast, schedule: seq<Wakeup>, stream: seq<C.Item>, greeting: seq<Frame>)
    requires Idle(c, greeting) && |c.inbox.items| == |stream| && InTurn(schedule)
    ensures var d := Served(c, ch, schedule, stream);
            d.inbox.handled == c.inbox.handled && Replied(d, greeting)
  {
    if schedule == [] {
      DrainedKeeps(c, stream);
    } else {
      var d, now := ServedStep(c, ch, schedule, stream);
      ReadsOne(c, now, C.Eof, greeting);
    }
  }

  /** A task whose reader, queue and sink are polled in turn handles exactly the frames of its
      stream up to the first that cannot be handled or the first failed read, and sends the
      replies to them, in order, after its greeting; whatever is broadcast or registered
      meanwhile. */
  lemma EveryFrameHandled(maxPending: nat, ch: C.Broadcast, greets: bool, greeting: Meanwhile,
                          schedule: seq<Wakeup>, stream: seq<C.Item>)
    requires maxPending >= 1 && InTurn(schedule) && |schedule| >= 4 * |stream|
    ensures var d := Outcome(maxPending, ch, greets, greeting, schedule, stream);
            && d.inbox.handled == Handleable(stream) && d.answered == Replies(Handleable(stream))
            && d.sent == (if greets then [HELO] else []) + d.answered
  {
    var c := Entered(maxPending, ch, greets);
    assert c.sent == c.sent + [];
    ServedInTurn(c, During(ch, greeting), schedule, stream, c.sent);
    assert stream[0..] == stream;
  }

  // ---------------------------------------------------------------- every broadcast is forwarded

  /** Channel and sink are polled in turn, and nobody else does anything. */
  ghost predicate Forwarding(schedule: seq<Wakeup>) {
    forall k :: 0 <= k < |schedule| ==>
      && schedule[k].choice == (if k % 3 == 0 then PollBroadcast else SinkReady)
      && schedule[k].meanwhile.published == [] && !schedule[k].meanwhile.dropped
  }

  lemma QuietChannel(ch: C.Broadcast, m: Meanwhile)
    requires m.published == [] && !m.dropped
    ensures During(ch, m) == ch
  {
    assert ch.log + [] == ch.log;
  }

  lemma ForwardsOne(c: C.Conn, ch: C.Broadcast, item: C.Item)
    requires c.phase.Running? && c.handler == C.FRESH && c.feed.cursor < |ch.log| && !ch.Overwritten(c.feed.cursor)
    ensures var taken := AfterPoll(c, ch, PollBroadcast, item);
            && taken.phase.Running? && taken.inbox == c.inbox
            && var accepted := AfterPoll(taken, ch, SinkReady, item);
               && accepted.phase.Running? && accepted.inbox == c.inbox
               && var d := AfterPoll(accepted, ch, SinkReady, item);
                  && d.phase.Running? && d.handler == C.FRESH && d.inbox == c.inbox
                  && d.feed.cursor == c.feed.cursor + 1
                  && d.feed.forwarded == c.feed.forwarded + [ch.log[c.feed.cursor]]
                  && d.sent == c.sent + [ch.log[c.feed.cursor]]
  {
  }

  lemma {:induction false} ServedForwards(c: C.Conn, ch: C.Broadcast, schedule: seq<Wakeup>, stream: seq<C.Item>)
    requires c.phase.Running? && c.handler == C.FRESH && |c.inbox.items| <= |stream|
    requires c.feed.cursor <= |ch.log| && !ch.Overwritten(c.feed.cursor)
    requires Forwarding(schedule) && |schedule| == 3 * (|ch.log| - c.feed.cursor)
    ensures var d := Served(c, ch, schedule, stream);
            && d.feed.forwarded == c.feed.forwarded + ch.log[c.feed.cursor..]
            && d.sent == c.sent + ch.log[c.feed.cursor..]
    decreases |schedule|
  {
    var k := c.feed.cursor;
    if k == |ch.log| {
      DrainedKeeps(c, stream);
    } else {
      var d := ForwardRound(c, ch, schedule, stream);
      forall j | 0 <= j < |schedule[3..]|
        ensures && schedule[3..][j].choice == (if j % 3 == 0 then PollBroadcast else SinkReady)
                && schedule[3..][j].meanwhile.published == [] && !schedule[3..][j].meanwhile.dropped
      {
        assert schedule[3..][j] == schedule[j + 3] && (j + 3) % 3 == j % 3;
      }
      ServedForwards(d, ch, schedule[3..], stream);
      assert ch.log[k..] == [ch.log[k]] + ch.log[k + 1..];
      assert c.feed.forwarded + [ch.log[k]] + ch.log[k + 1..] == c.feed.forwarded + ch.log[k..];
      assert c.sent + [ch.log[k]] + ch.log[k + 1..] == c.sent + ch.log[k..];
    }
  }

  lemma ForwardRound(c: C.Conn, ch: C.Broadcast, schedule: seq<Wakeup>, stream: seq<C.Item>) returns (d: C.Conn)
    requires c.phase.Running? && c.handler == C.FRESH && |c.inbox.items| <= |stream|
    requires c.feed.cursor < |ch.log| && !ch.Overwritten(c.feed.cursor) && Forwarding(schedule) && |schedule| >= 3
    ensures d.phase.Running? && d.handler == C.FRESH && d.inbox == c.inbox && d.feed.cursor == c.feed.cursor + 1
    ensures d.feed.forwarded == c.feed.forwarded + [ch.log[c.feed.cursor]]
    ensures d.sent == c.sent + [ch.log[c.feed.cursor]]
    ensures Served(c, ch, schedule, stream) == Served(d, ch, schedule[3..], stream)
  {
    assert schedule[0].choice == PollBroadcast && schedule[1].choice == SinkReady && schedule[2].choice == SinkReady;
    assert schedule[1..][0] == schedule[1] && schedule[2..][0] == schedule[2];
    assert schedule[1..][1..] == schedule[2..] && schedule[2..][1..] == schedule[3..];
    QuietChannel(ch, schedule[0].meanwhile);
    QuietChannel(ch, schedule[1].meanwhile);
    QuietChannel(ch, schedule[2].meanwhile);
    ForwardsOne(c, ch, NextItem(c.inbox.items, stream));
    var now;
    d, now := ServedStep(c, ch, schedule, stream);
    d, now := ServedStep(d, now, schedule[1..], stream);
    d, now := ServedStep(d, now, schedule[2..], stream);
  }

  /** A task whose channel and sink are polled in turn forwards everything published since it
      subscribed, in order, if it is not more than the channel retains. */
  lemma EveryBroadcastForwarded(maxPending: nat, ch: C.Broadcast, greets: bool, greeting: Meanwhile,
                                schedule: seq<Wakeup>, stream: seq<C.Item>)
    requires Forwarding(schedule) && |schedule| == 3 * |greeting.published| && |greeting.published| <= ch.window
    ensures var d := Outcome(maxPending, ch, greets, greeting, schedule, stream);
            && d.feed.forwarded == greeting.published
            && d.sent == (if greets then [HELO] else []) + greeting.published
  {
    var c, now := Entered(maxPending, ch, greets), During(ch, greeting);
    ServedForwards(c, now, schedule, stream);
    assert now.log[|ch.log|..] == greeting.published;
  }
}
