/** Conversations stop: whatever is broadcast, and whatever the schedule, a link between two tasks
    running this code falls quiet. */
module Quiescence {
  import opened Protocol
  import opened Sequences
  import opened Link
  import C = Connection

  // ---------------------------------------------------------------- how much is handled

  /** The weight a task has put into the conversation of its own accord. */
  function Injected(c: C.Conn): nat {
    (if c.heloSent then Weight(HELO) else 0) + Total(c.feed.forwarded, Weight)
  }

  lemma AnsweredSent(near: C.Conn, ch: C.Broadcast)
    requires C.Inv(near, ch)
    ensures Total(near.answered, Answered) == 0
    ensures Total(near.sent, Weight) == Injected(near) + |near.answered|
  {
    SentWeight(near, ch);
    RepliesCounted(near.inbox.handled);
    var p := C.PartialReply(near.handler);
    if p != [] {
      ReplyLosesWeight(near.handler.frame);
      assert p[..0] == [];
      assert Total(p, Answered) == 0;
    }
    TotalConcat(Replies(near.inbox.handled), p, Answered);
    TotalWeight(near.answered);
  }

  lemma SentWeight(c: C.Conn, ch: C.Broadcast)
    requires C.Inv(c, ch)
    ensures Total(c.sent, Weight) ==
            (if c.heloSent then Weight(HELO) else 0) + Total(c.answered, Weight) + Total(c.feed.forwarded, Weight)
  {
    if c.heloSent {
      TotalFirst(c.sent, Weight);
      MergeTotal(c.sent[1..], c.answered, c.feed.forwarded, Weight);
    } else {
      MergeTotal(c.sent, c.answered, c.feed.forwarded, Weight);
    }
  }

  /** Handled frames and the replies already out are covered by what the other end sent. */
  lemma HandledCovered(near: C.Conn, ch: C.Broadcast, far: C.Conn)
    requires C.Inv(near, ch) && InOrder(near, far)
    ensures |near.inbox.handled| + |near.answered| <= Total(far.sent, Weight)
    ensures near.inbox.handled == far.sent ==>
              |near.inbox.handled| + |near.answered| == Total(far.sent, Weight)
  {
    var b, h := near.inbox, C.InHand(near.handler);
    assert b.handled + h <= C.FramesOf(b.items);
    TotalPrefix(b.handled + h, far.sent, Weight);
    TotalConcat(b.handled, h, Weight);
    TotalWeight(b.handled);
    RepliesCounted(b.handled);
    if C.PartialReply(near.handler) != [] {
      assert h == [near.handler.frame] && h[..0] == [];
    }
    if b.handled == far.sent {
      assert h == [];
    }
  }

  /** In any state of any link, the frames handled at both ends are bounded by the weight the
      two ends injected (two for each `helo` and `ping`, one for anything else), and once both
      have handled everything the bound is met exactly. */
  lemma HandledBounded(l: Link)
    requires Inv(l)
    ensures |l.left.conn.inbox.handled| + |l.right.conn.inbox.handled|
            <= Injected(l.left.conn) + Injected(l.right.conn)
    ensures l.left.conn.inbox.handled == l.right.conn.sent && l.right.conn.inbox.handled == l.left.conn.sent ==>
              |l.left.conn.inbox.handled| + |l.right.conn.inbox.handled|
              == Injected(l.left.conn) + Injected(l.right.conn)
  {
    HandledCovered(l.left.conn, l.left.channel, l.right.conn);
    HandledCovered(l.right.conn, l.right.channel, l.left.conn);
    AnsweredSent(l.left.conn, l.left.channel);
    AnsweredSent(l.right.conn, l.right.channel);
  }

  /** Replies out at a task: one per `helo` or `ping` it handled, and possibly the one for the
      frame in hand. */
  lemma RepliesMatchQuestions(c: C.Conn, ch: C.Broadcast)
    requires C.Inv(c, ch)
    ensures |c.answered| == Total(c.inbox.handled, Answered) + |C.PartialReply(c.handler)|
    ensures |C.PartialReply(c.handler)| <= 1
    ensures forall f :: Answered(f) == 1 <==> f == HELO || f == PING
  {
    RepliesCounted(c.inbox.handled);
    forall f ensures Answered(f) == 1 <==> f == HELO || f == PING {
      ReactTable(f);
    }
  }

  // ---------------------------------------------------------------- termination

  /** Turns still owed for a frame that is queued, unread, or waiting in the broadcast log. */
  function QueuedCost(f: Frame): nat { 5 * Weight(f) - 3 }

  function UnreadCost(f: Frame): nat { QueuedCost(f) + 1 }

  function BacklogCost(f: Frame): nat { UnreadCost(f) + 4 }

  function PhaseCost(c: C.Conn): nat {
    match c.phase
    case Opening => 14
    case Greeting => if c.heloSent then 4 else 13
    case Running => 3
    case Closing => 2
    case Unregistering => 1
    case _ => 0
  }

  function HandlerCost(h: C.Handler): nat {
    match h
    case Selecting(_, broadcastOn) => if broadcastOn then 1 else 0
    case Replying(_, r, accepted) => if accepted then 2 else 3 + UnreadCost(r)
    case Forwarding(f, accepted) => if accepted then 2 else 3 + UnreadCost(f)
    case Stopped(_) => 0
  }

  function Backlog(c: C.Conn, ch: C.Broadcast): seq<Frame> {
    if c.feed.cursor <= |ch.log| then ch.log[c.feed.cursor..] else []
  }

  function Effort(c: C.Conn, ch: C.Broadcast): nat {
    PhaseCost(c) + HandlerCost(c.handler) + Total(c.inbox.queue, QueuedCost)
    + Total(Backlog(c, ch), BacklogCost)
  }

  /** Turns still owed on the whole link. */
  function Potential(l: Link): nat {
    Effort(l.left.conn, l.left.channel) + Effort(l.right.conn, l.right.channel)
    + Total(Unread(l.left.conn, l.right.conn), UnreadCost)
    + Total(Unread(l.right.conn, l.left.conn), UnreadCost)
  }

  function ReadCost(t: C.Event): nat {
    if t.Read? && t.item.Data? then UnreadCost(t.item.frame) else 0
  }

  lemma SilentReply(f: Frame)
    requires React(f).Answer?
    ensures QueuedCost(f) == 7 && UnreadCost(React(f).reply) == 3
  {
    ReactTable(f);
    ReplyLosesWeight(f);
  }

  lemma ReadEffort(c: C.Conn, item: C.Item, ch: C.Broadcast)
    requires c.phase.Running?
    ensures Effort(C.ReadItem(c, item), ch) < Effort(c, ch) + ReadCost(C.Read(item))
  {
    if item.Data? {
      TotalAppend(c.inbox.queue, item.frame, QueuedCost);
    }
  }

  /** A turn that takes the first frame off the queue. */
  lemma TakenEffort(c: C.Conn, next: C.Conn, ch: C.Broadcast)
    requires c.inbox.queue != [] && next.inbox.queue == c.inbox.queue[1..] && next.feed.cursor == c.feed.cursor
    ensures Effort(c, ch) - Effort(next, ch)
            == PhaseCost(c) - PhaseCost(next) + HandlerCost(c.handler) - HandlerCost(next.handler)
               + QueuedCost(c.inbox.queue[0])
  {
    TotalFirst(c.inbox.queue, QueuedCost);
    assert Backlog(next, ch) == Backlog(c, ch);
  }

  lemma ReceiveEffort(c: C.Conn, ch: C.Broadcast)
    requires c.phase.Running? && C.ReceiveReady(c) && c.inbox.queue != []
    ensures Effort(C.Receive(c), ch) < Effort(c, ch)
  {
    var f, next := c.inbox.queue[0], C.Receive(c);
    TakenEffort(c, next, ch);
    if React(f).Answer? {
      SilentReply(f);
      assert next.handler == C.Replying(f, React(f).reply, false) && PhaseCost(next) == PhaseCost(c);
    } else {
      assert HandlerCost(next.handler) <= 1 && PhaseCost(next) <= PhaseCost(c) && QueuedCost(f) >= 2;
    }
  }

  lemma BacklogDrops(log: seq<Frame>, from: nat, to: nat)
    requires from <= to <= |log|
    ensures Total(log[to..], BacklogCost) <= Total(log[from..], BacklogCost)
    ensures to == from + 1 ==>
              Total(log[from..], BacklogCost) == Total(log[to..], BacklogCost) + BacklogCost(log[from])
  {
    assert log[from..] == log[from..to] + log[to..];
    TotalConcat(log[from..to], log[to..], BacklogCost);
    if to == from + 1 {
      assert log[from..to] == [] + [log[from]];
      TotalAppend([], log[from], BacklogCost);
    }
  }

  lemma ForwardEffort(c: C.Conn, ch: C.Broadcast)
    requires C.ReceiveBroadcastReady(c, ch) && c.feed.cursor < |ch.log| && !ch.Overwritten(c.feed.cursor)
    ensures Effort(C.ReceiveBroadcast(c, ch), ch) < Effort(c, ch)
  {
    var k := c.feed.cursor;
    BacklogDrops(ch.log, k, k + 1);
    var next := C.ReceiveBroadcast(c, ch);
    assert next.handler == C.Forwarding(ch.log[k], false) && next.feed.cursor == k + 1;
    assert next.inbox == c.inbox && PhaseCost(next) == PhaseCost(c);
  }

  lemma SkipEffort(c: C.Conn, ch: C.Broadcast)
    requires C.ReceiveBroadcastReady(c, ch) && c.feed.cursor <= |ch.log| && c.handler.queueOn
    requires c.feed.cursor == |ch.log| || ch.Overwritten(c.feed.cursor)
    ensures Effort(C.ReceiveBroadcast(c, ch), ch) < Effort(c, ch)
  {
    BacklogDrops(ch.log, c.feed.cursor, C.ReceiveBroadcast(c, ch).feed.cursor);
  }

  lemma BroadcastEffort(c: C.Conn, ch: C.Broadcast)
    requires C.ReceiveBroadcastReady(c, ch) && c.feed.cursor <= |ch.log| && c.handler.queueOn
    ensures Effort(C.ReceiveBroadcast(c, ch), ch) < Effort(c, ch)
  {
    if c.feed.cursor == |ch.log| || ch.Overwritten(c.feed.cursor) {
      SkipEffort(c, ch);
    } else {
      ForwardEffort(c, ch);
    }
  }

  /** A turn that leaves the queue, the phase and the broadcast cursor alone costs what it does
      to the handler. */
  lemma HandlerEffort(c: C.Conn, next: C.Conn, ch: C.Broadcast)
    requires next.inbox.queue == c.inbox.queue && next.phase == c.phase && next.heloSent == c.heloSent
    requires next.feed.cursor == c.feed.cursor
    ensures Effort(next, ch) - HandlerCost(next.handler) == Effort(c, ch) - HandlerCost(c.handler)
  {
    assert Backlog(next, ch) == Backlog(c, ch) && PhaseCost(next) == PhaseCost(c);
  }

  lemma TotalOne(f: Frame)
    ensures Total([f], UnreadCost) == UnreadCost(f)
  {
    assert [f] == [] + [f];
    TotalAppend([], f, UnreadCost);
  }

  lemma AcceptReplyEffort(c: C.Conn, ch: C.Broadcast)
    requires C.Enabled(c, C.SinkAccept, ch) && c.handler.Replying?
    ensures Effort(C.Accept(c), ch) + Total([c.handler.reply], UnreadCost) < Effort(c, ch)
  {
    var next := C.Accept(c);
    assert next.handler == C.Replying(c.handler.frame, c.handler.reply, true);
    HandlerEffort(c, next, ch);
    TotalOne(c.handler.reply);
  }

  lemma AcceptBroadcastEffort(c: C.Conn, ch: C.Broadcast)
    requires C.Enabled(c, C.SinkAccept, ch) && c.handler.Forwarding?
    ensures Effort(C.Accept(c), ch) + Total([c.handler.frame], UnreadCost) < Effort(c, ch)
  {
    var next := C.Accept(c);
    assert next.handler == C.Forwarding(c.handler.frame, true) && next.feed.cursor == c.feed.cursor;
    HandlerEffort(c, next, ch);
    TotalOne(c.handler.frame);
  }

  lemma FlushEffort(c: C.Conn, ch: C.Broadcast)
    requires C.Enabled(c, C.SinkDone, ch)
    ensures Effort(C.Flush(c), ch) < Effort(c, ch)
  {
    var next := C.Flush(c);
    assert next.handler == C.FRESH && next.inbox.queue == c.inbox.queue;
    HandlerEffort(c, next, ch);
  }

  lemma AcceptEffort(c: C.Conn, ch: C.Broadcast)
    requires C.Enabled(c, C.SinkAccept, ch)
    ensures Effort(C.Accept(c), ch) + Total(C.Output(c, C.SinkAccept, ch), UnreadCost) < Effort(c, ch)
  {
    if c.handler.Replying? {
      AcceptReplyEffort(c, ch);
    } else {
      AcceptBroadcastEffort(c, ch);
    }
  }

  lemma GreetEffort(c: C.Conn, ch: C.Broadcast)
    requires C.Enabled(c, C.GreetAccept, ch)
    ensures Effort(C.Next(c, C.GreetAccept, ch), ch) + Total([HELO], UnreadCost) < Effort(c, ch)
  {
    ReactTable(HELO);
    TotalOne(HELO);
    assert Backlog(C.Next(c, C.GreetAccept, ch), ch) == Backlog(c, ch);
  }

  lemma OtherEffort(c: C.Conn, t: C.Event, ch: C.Broadcast)
    requires C.Enabled(c, t, ch)
    requires t == C.Register || t == C.Refuse || t == C.GreetDone || t == C.GreetFail
             || t == C.SinkFail || t == C.WriterClosed || t == C.Unregister
    ensures Effort(C.Next(c, t, ch), ch) < Effort(c, ch)
  {
    var next := C.Next(c, t, ch);
    assert next.feed == c.feed && next.inbox == c.inbox && next.handler == c.handler;
    assert Backlog(next, ch) == Backlog(c, ch) && PhaseCost(next) < PhaseCost(c);
  }

  /** Every turn pays for what it causes and leaves less to do. */
  lemma EffortDrops(c: C.Conn, t: C.Event, ch: C.Broadcast)
    requires C.PhaseInv(c) && c.feed.cursor <= |ch.log| && C.Enabled(c, t, ch)
    ensures Effort(C.Next(c, t, ch), ch) + Total(C.Output(c, t, ch), UnreadCost)
            < Effort(c, ch) + ReadCost(t)
  {
    match t
    case Read(item) => ReadEffort(c, item, ch);
    case TakeQueue => ReceiveEffort(c, ch);
    case TakeBroadcast => BroadcastEffort(c, ch);
    case SinkAccept => AcceptEffort(c, ch);
    case SinkDone => FlushEffort(c, ch);
    case GreetAccept => GreetEffort(c, ch);
    case _ => OtherEffort(c, t, ch);
  }

  lemma UnreadByNear(near: C.Conn, t: C.Event, ch: C.Broadcast, far: C.Conn)
    requires InOrder(near, far) && C.Enabled(near, t, ch)
    requires t.Read? && t.item.Data? ==> Unread(near, far) != [] && t.item.frame == Unread(near, far)[0]
    ensures Total(Unread(C.Next(near, t, ch), far), UnreadCost) + ReadCost(t)
            == Total(Unread(near, far), UnreadCost)
  {
    var next := C.Next(near, t, ch);
    C.NextItems(near, t, ch);
    if t.Read? {
      C.FramesOfAppend(near.inbox.items, t.item);
      if t.item.Data? {
        TotalFirst(Unread(near, far), UnreadCost);
        assert Unread(next, far) == Unread(near, far)[1..];
      }
    } else {
      assert near.inbox.items + [] == near.inbox.items;
    }
  }

  lemma UnreadByFar(near: C.Conn, t: C.Event, ch: C.Broadcast, far: C.Conn)
    requires InOrder(far, near) && C.PhaseInv(near) && C.Enabled(near, t, ch)
    ensures Total(Unread(far, C.Next(near, t, ch)), UnreadCost)
            == Total(Unread(far, near), UnreadCost) + Total(C.Output(near, t, ch), UnreadCost)
  {
    C.OutputSent(near, t, ch);
    var n := |C.FramesOf(far.inbox.items)|;
    var out := C.Output(near, t, ch);
    assert (near.sent + out)[n..] == near.sent[n..] + out;
    TotalConcat(near.sent[n..], out, UnreadCost);
  }

  lemma ActPotential(l: Link, s: Side, t: C.Event)
    requires Inv(l) && Enabled(l, Act(s, t))
    ensures Potential(Next(l, Act(s, t))) < Potential(l)
  {
    var near, far := l.Near(s), l.Far(s);
    EffortDrops(near.conn, t, near.channel);
    UnreadByNear(near.conn, t, near.channel, far.conn);
    UnreadByFar(near.conn, t, near.channel, far.conn);
  }

  /** A turn at either end lowers the link's potential; a broadcast raises it by a constant. */
  lemma PotentialStep(l: Link, e: Event)
    requires Inv(l) && Enabled(l, e)
    ensures e.Act? ==> Potential(Next(l, e)) < Potential(l)
    ensures e.Publish? ==> Potential(Next(l, e)) <= Potential(l) + 12
    ensures e.CloseChannel? ==> Potential(Next(l, e)) == Potential(l)
  {
    var near := l.Near(e.side);
    match e
    case Act(s, t) => ActPotential(l, s, t);
    case Publish(s, f) =>
      PublishEffort(near.conn, near.channel, f);
      assert Next(l, e).Near(s).conn == near.conn && Next(l, e).Far(s) == l.Far(s);
    case CloseChannel(s) =>
      assert Backlog(near.conn, NextEnd(near, e).channel) == Backlog(near.conn, near.channel);
  }

  lemma PublishEffort(c: C.Conn, ch: C.Broadcast, f: Frame)
    requires c.feed.cursor <= |ch.log|
    ensures Effort(c, ch.(log := ch.log + [f])) <= Effort(c, ch) + 12
  {
    var next := ch.(log := ch.log + [f]);
    var k := c.feed.cursor;
    assert next.log[k..] == ch.log[k..] + [f];
    assert Backlog(c, next) == Backlog(c, ch) + [f];
    TotalAppend(Backlog(c, ch), f, BacklogCost);
    assert BacklogCost(f) <= 12;
  }

  function Acts(es: seq<Event>): nat {
    if es == [] then 0 else (if es[0].Act? then 1 else 0) + Acts(es[1..])
  }

  function Publishes(es: seq<Event>): nat {
    if es == [] then 0 else (if es[0].Publish? then 1 else 0) + Publishes(es[1..])
  }

  /** In every run the turns taken, plus those still owed at the end, are at most those owed at
      the start plus twelve for each broadcast. */
  lemma {:induction false} TurnsBounded(l: Link, es: seq<Event>)
    requires Inv(l) && Run(l, es).Some?
    ensures Acts(es) + Potential(Run(l, es).value) <= Potential(l) + 12 * Publishes(es)
    decreases |es|
  {
    if es != [] {
      PotentialStep(l, es[0]);
      NextInv(l, es[0]);
      TurnsBounded(Next(l, es[0]), es[1..]);
    }
  }

  /** Opening a link costs at most thirty turns in all, whatever the schedule and however it
      breaks; so any run with finitely many broadcasts is finite. */
  lemma FreshLinkDrains(maxLeft: nat, maxRight: nat, windowLeft: nat, windowRight: nat, es: seq<Event>)
    requires Run(Link(Fresh(maxLeft, windowLeft), Fresh(maxRight, windowRight)), es).Some?
    ensures Acts(es) <= 30 + 12 * Publishes(es)
  {
    var l := Link(Fresh(maxLeft, windowLeft), Fresh(maxRight, windowRight));
    FreshInv(maxLeft, maxRight, windowLeft, windowRight);
    TurnsBounded(l, es);
    assert C.FramesOf([]) == [];
    assert Total<Frame>([], UnreadCost) == 0;
  }

  /** An end has nothing left to do in the conversation. */
  predicate Settled(near: C.Conn, far: C.Conn) {
    near.phase.Running? && near.handler.Selecting? && near.inbox.queue == [] && Unread(near, far) == []
  }

  /** A turn that does not stand for a failed send, a refusal or the end of the stream. */
  predicate Normal(t: C.Event) {
    !(t == C.GreetFail || t == C.SinkFail || t == C.Refuse || (t.Read? && !t.item.Data?))
  }

  /** The turn an end that has not settled can take. */
  function NormalTurn(c: C.Conn, unread: seq<Frame>): C.Event
    requires c.phase.Running? && c.handler.Selecting? && c.inbox.queue == [] ==> unread != []
  {
    if c.phase.Opening? then C.Register
    else if c.phase.Greeting? then (if c.heloSent then C.GreetDone else C.GreetAccept)
    else if c.handler.Replying? || c.handler.Forwarding? then
      (if c.handler.accepted then C.SinkDone else C.SinkAccept)
    else if c.inbox.queue != [] then C.TakeQueue
    else if unread != [] then C.Read(C.Data(unread[0]))
    else C.WriterClosed
  }

  lemma NormalTurnEnabled(c: C.Conn, unread: seq<Frame>, ch: C.Broadcast)
    requires C.PhaseInv(c) && C.HoldsReceiver(c)
    requires c.phase.Running? && c.handler.Selecting? && c.inbox.queue == [] ==> unread != []
    ensures var t := NormalTurn(c, unread); Normal(t) && C.Enabled(c, t, ch)
    ensures var t := NormalTurn(c, unread); t.Read? ==> unread != [] && t == C.Read(C.Data(unread[0]))
  {
  }

  /** No end waits for nothing: while an end has not closed and is unsettled, it has a normal
      turn to take. What the turn finds may still close it: a frame that cannot be handled, or a
      queue without room. */
  lemma UnsettledCanAct(l: Link, s: Side) returns (t: C.Event)
    requires Inv(l) && C.HoldsReceiver(l.Near(s).conn) && !Settled(l.Near(s).conn, l.Far(s).conn)
    ensures Normal(t) && Enabled(l, Act(s, t))
  {
    var c, u := l.Near(s).conn, Unread(l.Near(s).conn, l.Far(s).conn);
    NormalTurnEnabled(c, u, l.Near(s).channel);
    t := NormalTurn(c, u);
  }

  /** Settled on both sides with nothing rejected means everything sent has been handled, so the
      count of HandledBounded is met exactly. */
  lemma SettledIsCaughtUp(l: Link)
    requires Inv(l) && Settled(l.left.conn, l.right.conn) && Settled(l.right.conn, l.left.conn)
    ensures l.left.conn.inbox.handled == l.right.conn.sent && l.right.conn.inbox.handled == l.left.conn.sent
    ensures |l.left.conn.inbox.handled| + |l.right.conn.inbox.handled|
            == Injected(l.left.conn) + Injected(l.right.conn)
  {
    SettledHandled(l.left.conn, l.left.channel, l.right.conn);
    SettledHandled(l.right.conn, l.right.channel, l.left.conn);
    HandledBounded(l);
  }

  lemma SettledHandled(near: C.Conn, ch: C.Broadcast, far: C.Conn)
    requires C.Inv(near, ch) && InOrder(near, far) && Settled(near, far)
    ensures near.inbox.handled == far.sent
  {
    assert C.FramesOf(near.inbox.items) == near.inbox.handled;
  }
}
