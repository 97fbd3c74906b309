/** The bounded queue between two honest ends: how much room keeps it from ever overflowing, that
    with so much room every run without failures completes the handshake, and that with any less
    some run does not. */
module Flooding {
  import opened Wrappers
  import opened Protocol
  import opened Sequences
  import opened Link
  import opened Handshake
  import opened Quiescence
  import opened Completion
  import C = Connection
  import P = NodeProperties

  // ---------------------------------------------------------------- enough room

  lemma {:induction false} OnlyHelosAnswered(s: seq<Frame>)
    requires forall f :: f in s ==> Courteous(f)
    ensures Total(s, Answered) == Total(s, CountHelo)
  {
    if s != [] {
      var f := s[|s| - 1];
      assert f in s;
      CourteousReply(f);
      ReactTable(f);
      OnlyHelosAnswered(s[..|s| - 1]);
    }
  }

  lemma ForwardedLength(feed: C.Feed, held: Option<Frame>, ch: C.Broadcast)
    requires C.FeedInv(feed, held, ch)
    ensures |feed.forwarded| <= |ch.log|
  {
    P.IncreasingLength(feed.delivered, 0, |ch.log|);
  }

  lemma SentLength(near: C.Conn, ch: C.Broadcast)
    requires C.Inv(near, ch)
    ensures |near.sent| == (if near.heloSent then 1 else 0) + |near.answered| + |near.feed.forwarded|
  {
    if near.heloSent {
      MergeTotal(near.sent[1..], near.answered, near.feed.forwarded, Answered);
    } else {
      MergeTotal(near.sent, near.answered, near.feed.forwarded, Answered);
    }
  }

  /** An honest end answers at most once. */
  lemma AnsweredOnce(near: End, far: End)
    requires C.Inv(near.conn, near.channel) && C.Inv(far.conn, far.channel)
    requires InOrder(near.conn, far.conn) && InOrder(far.conn, near.conn) && Polite(near) && Polite(far)
    ensures |near.conn.answered| <= 1
  {
    InHandWasSent(near.conn, near.channel, far.conn);
    OnlyHelosAnswered(near.conn.inbox.handled);
    RepliesMatchQuestions(near.conn, near.channel);
    AcknowledgedSent(near, far.conn);
    SentCounts(far, near.conn);
  }

  /** So it sends no more than a `helo`, an `oleh` and what is broadcast at its node. */
  lemma SentBounded(near: End, far: End)
    requires C.Inv(near.conn, near.channel) && C.Inv(far.conn, far.channel)
    requires InOrder(near.conn, far.conn) && InOrder(far.conn, near.conn) && Polite(near) && Polite(far)
    ensures |near.conn.sent| <= 2 + |near.channel.log|
  {
    SentLength(near.conn, near.channel);
    AnsweredOnce(near, far);
    ForwardedLength(near.conn.feed, C.Held(near.conn.handler), near.channel);
  }

  /** The queue has room for all the other end can have sent. */
  predicate Room(near: End, far: End) {
    near.conn.inbox.maxPending >= 2 + |far.channel.log|
  }

  /** Between honest ends a queue with room for two frames and every broadcast at the other node
      never overflows. */
  lemma NeverFlooded(near: End, far: End)
    requires C.Inv(near.conn, near.channel) && C.Inv(far.conn, far.channel)
    requires InOrder(near.conn, far.conn) && InOrder(far.conn, near.conn) && Polite(near) && Polite(far)
    requires Room(near, far)
    ensures near.conn.inbox.rejected == []
  {
    var b, h := near.conn.inbox, C.InHand(near.conn.handler);
    SentBounded(far, near);
    assert |C.FramesOf(b.items)| == |b.handled + h| + |b.queue| + |b.rejected|;
  }

  // ---------------------------------------------------------------- every run completes

  /** Not a failed send, a refusal or the end of the stream. */
  predicate Smooth(e: Event) {
    e.Act? ==> Normal(e.turn)
  }

  predicate Roomy(l: Link) {
    Room(l.left, l.right) && Room(l.right, l.left)
  }

  lemma RoomyBefore(l: Link, e: Event)
    requires Enabled(l, e) && Roomy(Next(l, e))
    ensures Roomy(l)
  {
    if e.Act? {
      C.NextKeepsBound(l.Near(e.side).conn, e.turn, l.Near(e.side).channel);
    }
  }

  lemma {:induction false} RoomyThroughout(l: Link, es: seq<Event>)
    requires Run(l, es).Some? && Roomy(Run(l, es).value)
    ensures Roomy(l)
    decreases |es|
  {
    if es != [] {
      RoomyThroughout(Next(l, es[0]), es[1..]);
      RoomyBefore(l, es[0]);
    }
  }

  /** What is left that could close an end: a rejected frame or one that cannot be handled. */
  lemma TurnStaysOpen(c: C.Conn, t: C.Event, ch: C.Broadcast)
    requires C.PhaseInv(c) && C.HoldsReceiver(c) && Normal(t) && C.Enabled(c, t, ch)
    requires C.Next(c, t, ch).inbox.rejected == []
    requires t == C.TakeQueue && c.inbox.queue != [] ==> React(c.inbox.queue[0]) != Close
    ensures C.HoldsReceiver(C.Next(c, t, ch))
  {
    C.NextPhase(c, t, ch);
  }

  lemma SmoothTurn(near: End, t: C.Event, far: C.Conn)
    requires C.Inv(near.conn, near.channel) && InOrder(near.conn, far) && C.HoldsReceiver(near.conn)
    requires forall f :: f in far.sent ==> Courteous(f)
    requires Normal(t) && C.Enabled(near.conn, t, near.channel)
    requires C.Next(near.conn, t, near.channel).inbox.rejected == []
    ensures C.HoldsReceiver(C.Next(near.conn, t, near.channel))
  {
    if t == C.TakeQueue && near.conn.inbox.queue != [] {
      QueuedWasSent(near.conn, near.channel, far);
      CourteousReply(near.conn.inbox.queue[0]);
    }
    TurnStaysOpen(near.conn, t, near.channel);
  }

  lemma SmoothStepHolds(l: Link, e: Event)
    requires Healthy(l) && Enabled(l, e) && Smooth(e) && CalmEvent(e) && Roomy(Next(l, e))
    ensures C.HoldsReceiver(Next(l, e).Near(e.side).conn)
  {
    var m := Next(l, e);
    NextInv(l, e);
    PoliteStep(l, e);
    NeverFlooded(m.Near(e.side), m.Far(e.side));
    if e.Act? {
      SmoothTurn(l.Near(e.side), e.turn, l.Far(e.side).conn);
    }
  }

  lemma SmoothStep(l: Link, e: Event)
    requires Healthy(l) && Enabled(l, e) && Smooth(e) && CalmEvent(e) && Roomy(Next(l, e))
    ensures Healthy(Next(l, e))
  {
    SmoothStepHolds(l, e);
    HealthyStep(l, e);
  }

  /** With room in the queues, a run in which no send fails, no stream ends and nobody is refused
      never closes an end. */
  lemma {:induction false} SmoothRunUnbroken(l: Link, es: seq<Event>)
    requires Healthy(l) && Run(l, es).Some? && Roomy(Run(l, es).value)
    requires forall e :: e in es ==> Smooth(e) && CalmEvent(e)
    ensures Unbroken(l, es) && Healthy(Run(l, es).value)
    decreases |es|
  {
    if es != [] {
      assert Smooth(es[0]) && CalmEvent(es[0]);
      RoomyThroughout(Next(l, es[0]), es[1..]);
      SmoothStep(l, es[0]);
      SmoothRunUnbroken(Next(l, es[0]), es[1..]);
    }
  }

  /** No end can act any more, short of a failure. */
  ghost predicate Stuck(l: Link) {
    forall s, t :: Normal(t) ==> !Enabled(l, Act(s, t))
  }

  lemma StuckIsSettled(l: Link, s: Side)
    requires Inv(l) && Stuck(l) && C.HoldsReceiver(l.Near(s).conn)
    ensures Settled(l.Near(s).conn, l.Far(s).conn)
  {
    if !Settled(l.Near(s).conn, l.Far(s).conn) {
      var _ := UnsettledCanAct(l, s);
    }
  }

  /** Not only can the handshake be completed: with room in the queues every run without failures
      that goes on until neither end can act has completed it, whatever the order of its turns.
      TurnsBounded says that such runs get there. */
  lemma EveryRunCompletes(l: Link, es: seq<Event>)
    requires Healthy(l) && Run(l, es).Some? && Roomy(Run(l, es).value) && Stuck(Run(l, es).value)
    requires forall e :: e in es ==> Smooth(e) && CalmEvent(e)
    ensures var m := Run(l, es).value;
            && Settled(m.left.conn, m.right.conn) && Settled(m.right.conn, m.left.conn)
            && Acquainted(m.left.conn, m.right.conn) && Acquainted(m.right.conn, m.left.conn)
  {
    SmoothRunUnbroken(l, es);
    var m := Run(l, es).value;
    StuckIsSettled(m, Left);
    StuckIsSettled(m, Right);
    SettledIsAcquainted(m);
  }

  // ---------------------------------------------------------------- too little room

  /** `l` is reached from `from` without a failure, with only heartbeats broadcast. */
  ghost predicate Reaches(from: Link, l: Link) {
    exists es :: Run(from, es) == Some(l) && forall e :: e in es ==> Smooth(e) && CalmEvent(e)
  }

  lemma ReachesNext(from: Link, l: Link, e: Event)
    requires Reaches(from, l) && Enabled(l, e) && Smooth(e) && CalmEvent(e)
    ensures Reaches(from, Next(l, e))
  {
    var es :| Run(from, es) == Some(l) && forall e :: e in es ==> Smooth(e) && CalmEvent(e);
    RunConcat(from, es, [e]);
    assert Run(Next(l, e), [e][1..]) == Some(Next(l, e));
    assert Run(from, es + [e]) == Some(Next(l, e));
  }

  lemma ReachesAct(from: Link, l: Link, s: Side, t: C.Event) returns (m: Link)
    requires Reaches(from, l) && Enabled(l, Act(s, t)) && Normal(t)
    ensures Reaches(from, m) && m == Next(l, Act(s, t))
  {
    ReachesNext(from, l, Act(s, t));
    m := Next(l, Act(s, t));
  }

  /** An end that has greeted and entered its select. */
  function Greeted(maxPending: nat, window: nat): End {
    End(C.Conn(C.Running, C.FRESH, true, false, C.Inbox(maxPending, [], [], [], []),
               C.Feed(0, 0, [], [], false), true, [HELO], []),
        C.Broadcast([], window, true))
  }

  lemma ReachesGreeted(from: Link, l: Link, s: Side, maxPending: nat, window: nat) returns (m: Link)
    requires Reaches(from, l) && l.Near(s) == Fresh(maxPending, window)
    ensures Reaches(from, m) && m == l.Set(s, Greeted(maxPending, window))
  {
    m := ReachesAct(from, l, s, C.Register);
    m := ReachesAct(from, m, s, C.GreetAccept);
    m := ReachesAct(from, m, s, C.GreetDone);
  }

  /** An end that has greeted, and has the other's `helo` in its queue. */
  function Asked(maxPending: nat, window: nat): End {
    End(C.Conn(C.Running, C.FRESH, true, false, C.Inbox(maxPending, [HELO], [C.Data(HELO)], [], []),
               C.Feed(0, 0, [], [], false), true, [HELO], []),
        C.Broadcast([], window, true))
  }

  /** An end that has greeted, and has answered the other's `helo`. */
  function Replied(maxPending: nat, window: nat): End {
    End(C.Conn(C.Running, C.FRESH, true, false, C.Inbox(maxPending, [], [C.Data(HELO)], [HELO], []),
               C.Feed(0, 0, [], [], false), true, [HELO, OLEH], [OLEH]),
        C.Broadcast([], window, true))
  }

  lemma ReachesAsked(from: Link, l: Link, maxPending: nat, window: nat) returns (m: Link)
    requires Reaches(from, l) && maxPending >= 1
    requires l.right == Greeted(maxPending, window) && l.left.conn.sent == [HELO]
    ensures Reaches(from, m) && m == Link(l.left, Asked(maxPending, window))
  {
    assert C.FramesOf([]) == [];
    assert Unread(l.right.conn, l.left.conn) == [HELO];
    m := ReachesAct(from, l, Right, C.Read(C.Data(HELO)));
    assert m.right.conn.inbox.items == [C.Data(HELO)] && m.right.conn.inbox.queue == [HELO];
  }

  /** An end that has taken the other's `helo` in hand. */
  function Replying(maxPending: nat, window: nat): End {
    End(C.Conn(C.Running, C.Replying(HELO, OLEH, false), true, false,
               C.Inbox(maxPending, [], [C.Data(HELO)], [], []),
               C.Feed(0, 0, [], [], false), true, [HELO], []),
        C.Broadcast([], window, true))
  }

  lemma ReachesSent(from: Link, l: Link, maxPending: nat, window: nat) returns (m: Link)
    requires Reaches(from, l) && l.right == Replying(maxPending, window)
    ensures Reaches(from, m) && m == Link(l.left, Replied(maxPending, window))
  {
    m := ReachesAct(from, l, Right, C.SinkAccept);
    m := ReachesAct(from, m, Right, C.SinkDone);
  }

  lemma ReachesReplied(from: Link, l: Link, maxPending: nat, window: nat) returns (m: Link)
    requires Reaches(from, l) && l.right == Asked(maxPending, window)
    ensures Reaches(from, m) && m == Link(l.left, Replied(maxPending, window))
  {
    ReactTable(HELO);
    assert [HELO][1..] == [];
    m := ReachesAct(from, l, Right, C.TakeQueue);
    assert m == Link(l.left, Replying(maxPending, window));
    m := ReachesSent(from, m, maxPending, window);
  }

  /** The right end has sent `2 + k` frames and the left end has read none of them. */
  ghost predicate Talked(l: Link, maxPending: nat, window: nat, k: nat) {
    && l.left == Greeted(maxPending, window)
    && l.right.conn.phase.Running? && l.right.conn.handler == C.FRESH
    && |l.right.conn.sent| == 2 + k && l.right.conn.feed.cursor == |l.right.channel.log| == k
    && l.right.channel.open && l.right.channel.window >= 1
  }

  /** One more heartbeat is broadcast at the right end's node and passed on. */
  lemma TalksOn(from: Link, l: Link, maxPending: nat, window: nat, k: nat, heartbeat: Frame) returns (m: Link)
    requires Reaches(from, l) && Talked(l, maxPending, window, k) && IsHeartbeat(heartbeat)
    ensures Reaches(from, m) && Talked(m, maxPending, window, k + 1)
  {
    ReachesNext(from, l, Publish(Right, heartbeat));
    m := Next(l, Publish(Right, heartbeat));
    m := ReachesAct(from, m, Right, C.TakeBroadcast);
    m := ReachesAct(from, m, Right, C.SinkAccept);
    m := ReachesAct(from, m, Right, C.SinkDone);
  }

  lemma {:induction false} ReachesTalked(maxPending: nat, maxRight: nat, window: nat, windowRight: nat, k: nat,
                                         heartbeat: Frame) returns (l: Link)
    requires maxRight >= 1 && windowRight >= 1 && IsHeartbeat(heartbeat)
    ensures Reaches(Link(Fresh(maxPending, window), Fresh(maxRight, windowRight)), l)
    ensures Talked(l, maxPending, window, k)
  {
    var from := Link(Fresh(maxPending, window), Fresh(maxRight, windowRight));
    if k == 0 {
      assert Run(from, []) == Some(from);
      l := ReachesGreeted(from, from, Left, maxPending, window);
      l := ReachesGreeted(from, l, Right, maxRight, windowRight);
      l := ReachesAsked(from, l, maxRight, windowRight);
      l := ReachesReplied(from, l, maxRight, windowRight);
    } else {
      l := ReachesTalked(maxPending, maxRight, window, windowRight, k - 1, heartbeat);
      l := TalksOn(from, l, maxPending, window, k - 1, heartbeat);
    }
  }

  /** The left end's reader has run ahead of its handler by `j` frames. */
  ghost predicate Ahead(l: Link, maxPending: nat, j: nat) {
    var c := l.left.conn;
    && c.phase.Running? && !c.closed && c.inbox.maxPending == maxPending
    && j <= |l.right.conn.sent| && |c.inbox.queue| == j
    && C.FramesOf(c.inbox.items) == l.right.conn.sent[..j]
  }

  lemma {:induction false} ReadsAhead(from: Link, l: Link, maxPending: nat, j: nat) returns (m: Link)
    requires Reaches(from, l) && Ahead(l, maxPending, 0) && j <= maxPending && j <= |l.right.conn.sent|
    ensures Reaches(from, m) && Ahead(m, maxPending, j) && m.right == l.right
    decreases j
  {
    m := l;
    if j > 0 {
      m := ReadsAhead(from, l, maxPending, j - 1);
      var f := l.right.conn.sent[j - 1];
      C.FramesOfAppend(m.left.conn.inbox.items, C.Data(f));
      assert l.right.conn.sent[..j] == l.right.conn.sent[..j - 1] + [f];
      m := ReachesAct(from, m, Left, C.Read(C.Data(f)));
    }
  }

  /** One frame less of room is too little: for any number of heartbeats at the other node, a
      queue bounded by one more than that number overflows in a run of two honest ends without
      any failure, when its reader runs ahead of its handler; and the connection closes. */
  lemma TooLittleRoom(k: nat, maxRight: nat, window: nat, windowRight: nat, heartbeat: Frame) returns (l: Link)
    requires maxRight >= 1 && windowRight >= 1 && IsHeartbeat(heartbeat)
    ensures Reaches(Link(Fresh(1 + k, window), Fresh(maxRight, windowRight)), l)
    ensures |l.right.channel.log| == k && !C.HoldsReceiver(l.left.conn) && l.left.conn.inbox.rejected != []
  {
    var from := Link(Fresh(1 + k, window), Fresh(maxRight, windowRight));
    l := ReachesTalked(1 + k, maxRight, window, windowRight, k, heartbeat);
    assert C.FramesOf([]) == [] && l.right.conn.sent[..0] == [];
    l := ReadsAhead(from, l, 1 + k, 1 + k);
    var f := l.right.conn.sent[1 + k];
    l := ReachesAct(from, l, Left, C.Read(C.Data(f)));
  }
}
