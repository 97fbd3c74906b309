/** The opening handshake between two honest ends (node/protocol/src/handshake.rs): nothing is
    broadcast but heartbeats, as in a running node. */
module Handshake {
  import opened Protocol
  import opened Sequences
  import opened Link
  import C = Connection

  predicate Courteous(f: Frame) {
    f == HELO || f == OLEH || IsHeartbeat(f)
  }

  ghost predicate Polite(end: End) {
    && (forall f :: f in end.conn.sent ==> Courteous(f))
    && (forall f :: f in end.channel.log ==> IsHeartbeat(f))
  }

  predicate CalmEvent(e: Event) {
    e.Publish? ==> IsHeartbeat(e.frame)
  }

  lemma CourteousReply(f: Frame)
    requires Courteous(f)
    ensures React(f) != Close && (React(f).Answer? ==> f == HELO && React(f).reply == OLEH)
  {
    ReactTable(f);
    WordsDiffer();
  }

  /** The frame in hand came from the other end. */
  lemma InHandWasSent(near: C.Conn, ch: C.Broadcast, far: C.Conn)
    requires C.Inv(near, ch) && InOrder(near, far)
    ensures forall f :: f in C.InHand(near.handler) || f in near.inbox.handled ==> f in far.sent
  {
    var b, h := near.inbox, C.InHand(near.handler);
    assert C.FramesOf(b.items) == b.handled + h + b.queue + b.rejected;
    forall f | f in h || f in b.handled ensures f in far.sent {
      assert f in C.FramesOf(b.items);
    }
  }

  /** Honest input and calm broadcasts make honest output. */
  lemma OutputCourteous(near: End, t: C.Event, far: C.Conn)
    requires C.Inv(near.conn, near.channel) && InOrder(near.conn, far) && Polite(near)
    requires forall f :: f in far.sent ==> Courteous(f)
    requires C.Enabled(near.conn, t, near.channel)
    ensures forall f :: f in C.Output(near.conn, t, near.channel) ==> Courteous(f)
  {
    var h := near.conn.handler;
    if t == C.SinkAccept && h.Replying? {
      InHandWasSent(near.conn, near.channel, far);
      assert h.frame in C.InHand(h);
      CourteousReply(h.frame);
    } else if t == C.SinkAccept {
      assert h.frame in near.channel.log;
    }
  }

  lemma PoliteStep(l: Link, e: Event)
    requires Inv(l) && Polite(l.left) && Polite(l.right) && Enabled(l, e) && CalmEvent(e)
    ensures Polite(NextEnd(l.Near(e.side), e))
  {
    var near, far := l.Near(e.side), l.Far(e.side);
    if e.Act? {
      C.OutputSent(near.conn, e.turn, near.channel);
      OutputCourteous(near, e.turn, far.conn);
    }
  }

  lemma {:induction false} PoliteRun(l: Link, es: seq<Event>)
    requires Inv(l) && Polite(l.left) && Polite(l.right) && Run(l, es).Some?
    requires forall e :: e in es ==> CalmEvent(e)
    ensures var m := Run(l, es).value; Inv(m) && Polite(m.left) && Polite(m.right)
    decreases |es|
  {
    if es != [] {
      assert CalmEvent(es[0]);
      NextInv(l, es[0]);
      PoliteStep(l, es[0]);
      PoliteRun(Next(l, es[0]), es[1..]);
    }
  }

  lemma SentTotal(c: C.Conn, ch: C.Broadcast, w: Frame -> nat)
    requires C.Inv(c, ch)
    ensures Total(c.sent, w) ==
            (if c.heloSent then w(HELO) else 0) + Total(c.answered, w) + Total(c.feed.forwarded, w)
  {
    if c.heloSent {
      TotalFirst(c.sent, w);
      MergeTotal(c.sent[1..], c.answered, c.feed.forwarded, w);
    } else {
      MergeTotal(c.sent, c.answered, c.feed.forwarded, w);
    }
  }

  lemma {:induction false} HeartbeatsUncounted(s: seq<Frame>)
    requires forall f :: f in s ==> IsHeartbeat(f)
    ensures Total(s, CountHelo) == 0 && Total(s, CountOleh) == 0
  {
    if s != [] {
      assert IsHeartbeat(s[|s| - 1]);
      HeartbeatsUncounted(s[..|s| - 1]);
    }
  }

  /** The helos an end has taken up: handled ones, and one in hand whose reply is out. */
  function Acknowledged(c: C.Conn): nat {
    Total(c.inbox.handled, CountHelo) + |C.PartialReply(c.handler)|
  }

  /** What an end has sent: one `helo` if the opening send was accepted, and exactly one `oleh`
      for every `helo` it has taken up. */
  lemma SentCounts(near: End, far: C.Conn)
    requires C.Inv(near.conn, near.channel) && Polite(near) && InOrder(near.conn, far)
    requires forall f :: f in far.sent ==> Courteous(f)
    ensures Total(near.conn.sent, CountHelo) == if near.conn.heloSent then 1 else 0
    ensures Total(near.conn.sent, CountOleh) == Acknowledged(near.conn)
    ensures C.PartialReply(near.conn.handler) != [] ==> near.conn.handler.frame == HELO
    ensures !near.conn.handler.Stopped?
  {
    var c, f := near.conn, near.conn.feed;
    SentTotal(c, near.channel, CountHelo);
    SentTotal(c, near.channel, CountOleh);
    WordsDiffer();
    forall x | x in f.forwarded ensures IsHeartbeat(x) {
      var i :| 0 <= i < |f.forwarded| && f.forwarded[i] == x;
      assert f.forwarded[i] == near.channel.log[f.delivered[i]];
    }
    HeartbeatsUncounted(f.forwarded);
    RepliesCounted(c.inbox.handled);
    InHandWasSent(c, near.channel, far);
    var p := C.PartialReply(c.handler);
    if c.handler.Replying? {
      assert c.handler.frame in C.InHand(c.handler);
      CourteousReply(c.handler.frame);
    } else if c.handler.Stopped? {
      assert c.handler.frame in C.InHand(c.handler);
      CourteousReply(c.handler.frame);
    }
    PartialCounts(p);
    TotalConcat(Replies(c.inbox.handled), p, CountHelo);
    TotalConcat(Replies(c.inbox.handled), p, CountOleh);
  }

  lemma PartialCounts(p: seq<Frame>)
    requires p == [] || p == [OLEH]
    ensures Total(p, CountHelo) == 0 && Total(p, CountOleh) == |p|
  {
    WordsDiffer();
    if p != [] {
      assert p[..0] == [];
    }
  }

  /** Everything taken up was sent by the other end. */
  lemma AcknowledgedSent(near: End, far: C.Conn)
    requires C.Inv(near.conn, near.channel) && InOrder(near.conn, far)
    requires forall f :: f in far.sent ==> Courteous(f)
    ensures Acknowledged(near.conn) <= Total(far.sent, CountHelo)
  {
    var c := near.conn;
    var b, h := c.inbox, C.InHand(c.handler);
    assert b.handled + h <= C.FramesOf(b.items);
    TotalPrefix(b.handled + h, far.sent, CountHelo);
    TotalConcat(b.handled, h, CountHelo);
    if C.PartialReply(c.handler) != [] {
      assert h == [c.handler.frame] && h[..0] == [];
      InHandWasSent(c, near.channel, far);
      assert c.handler.frame in h;
      CourteousReply(c.handler.frame);
    }
  }

  /** Both directions of a link in any reachable state, seen from either side. */
  ghost predicate Orderly(near: C.Conn, far: C.Conn) {
    && (near.heloSent ==> near.sent != [] && near.sent[0] == HELO)
    && Total(near.sent, CountHelo) == (if near.heloSent then 1 else 0)
    && Total(near.sent, CountOleh) <= Total(far.sent, CountHelo) <= 1
    && Total(near.sent, CountOleh) == Acknowledged(near)
    && (C.PartialReply(near.handler) != [] ==> near.handler.frame == HELO)
    && !near.handler.Stopped?
  }

  /** In every run of two honest ends, each direction starts with `helo` if the opening send was
      accepted, carries no other `helo` and at most one `oleh`, sends that `oleh` only once the
      opposite `helo` has been taken up, and never fails in `handle_received`. */
  lemma HandshakeOrderly(l: Link, es: seq<Event>)
    requires Inv(l) && Polite(l.left) && Polite(l.right) && Run(l, es).Some?
    requires forall e :: e in es ==> CalmEvent(e)
    ensures var m := Run(l, es).value;
            Orderly(m.left.conn, m.right.conn) && Orderly(m.right.conn, m.left.conn)
  {
    PoliteRun(l, es);
    var m := Run(l, es).value;
    SentCounts(m.left, m.right.conn);
    SentCounts(m.right, m.left.conn);
    AcknowledgedSent(m.left, m.right.conn);
    AcknowledgedSent(m.right, m.left.conn);
  }

  /** This end has handled all the other has sent. */
  predicate CaughtUp(near: C.Conn, far: C.Conn) {
    near.inbox.handled == far.sent
  }

  /** Once everything is handled, each end has handled exactly one `helo` and one `oleh`. */
  lemma HandshakeCompletes(l: Link, es: seq<Event>)
    requires Inv(l) && Polite(l.left) && Polite(l.right) && Run(l, es).Some?
    requires forall e :: e in es ==> CalmEvent(e)
    requires var m := Run(l, es).value;
             && CaughtUp(m.left.conn, m.right.conn) && CaughtUp(m.right.conn, m.left.conn)
             && m.left.conn.heloSent && m.right.conn.heloSent
    ensures var m := Run(l, es).value;
            && Total(m.left.conn.inbox.handled, CountHelo) == Total(m.left.conn.inbox.handled, CountOleh) == 1
            && Total(m.right.conn.inbox.handled, CountHelo) == Total(m.right.conn.inbox.handled, CountOleh) == 1
  {
    HandshakeOrderly(l, es);
  }

  /** Two freshly spawned ends are a legitimate start. */
  lemma FreshPolite(maxLeft: nat, maxRight: nat, windowLeft: nat, windowRight: nat)
    ensures var l := Link(Fresh(maxLeft, windowLeft), Fresh(maxRight, windowRight));
            Inv(l) && Polite(l.left) && Polite(l.right)
  {
    FreshInv(maxLeft, maxRight, windowLeft, windowRight);
  }
}
