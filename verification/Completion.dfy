/** Between two honest ends the opening handshake can always be completed, from wherever a run
    without failures has got to. */
module Completion {
  import opened Protocol
  import opened Sequences
  import opened Link
  import opened Handshake
  import opened Quiescence
  import C = Connection

  /** An end that has not closed, has room for a frame, and greeted before it entered its
      select. */
  ghost predicate Sociable(end: End) {
    && C.HoldsReceiver(end.conn) && end.conn.inbox.maxPending >= 1
    && (end.conn.phase.Running? ==> end.conn.heloSent)
    && Polite(end)
  }

  ghost predicate Healthy(l: Link) {
    Inv(l) && Sociable(l.left) && Sociable(l.right)
  }

  predicate Open(l: Link) {
    C.HoldsReceiver(l.left.conn) && C.HoldsReceiver(l.right.conn)
  }

  /** A run in which neither end ever closes and no opening send fails. */
  ghost predicate Unbroken(l: Link, es: seq<Event>)
    decreases |es|
  {
    && Open(l)
    && (es != [] && Enabled(l, es[0]) ==>
          !(es[0].Act? && es[0].turn == C.GreetFail) && Unbroken(Next(l, es[0]), es[1..]))
  }

  lemma FreshHealthy(maxLeft: nat, maxRight: nat, windowLeft: nat, windowRight: nat)
    requires maxLeft >= 1 && maxRight >= 1
    ensures Healthy(Link(Fresh(maxLeft, windowLeft), Fresh(maxRight, windowRight)))
  {
    FreshPolite(maxLeft, maxRight, windowLeft, windowRight);
  }

  lemma TurnGreets(c: C.Conn, t: C.Event, ch: C.Broadcast)
    requires C.Enabled(c, t, ch) && t != C.GreetFail
    requires C.HoldsReceiver(c) && (c.phase.Running? ==> c.heloSent)
    ensures var next := C.Next(c, t, ch);
            && (next.phase.Running? ==> next.heloSent)
            && next.inbox.maxPending == c.inbox.maxPending
  {
    C.NextKeepsBound(c, t, ch);
  }

  /** An end keeps its manners as long as it stays open. */
  lemma SociableStep(end: End, e: Event)
    requires Sociable(end) && (e.Act? ==> C.Enabled(end.conn, e.turn, end.channel) && e.turn != C.GreetFail)
    requires Polite(NextEnd(end, e)) && C.HoldsReceiver(NextEnd(end, e).conn)
    ensures Sociable(NextEnd(end, e))
  {
    if e.Act? {
      TurnGreets(end.conn, e.turn, end.channel);
    }
  }

  lemma HealthyStep(l: Link, e: Event)
    requires Healthy(l) && Enabled(l, e) && CalmEvent(e)
    requires !(e.Act? && e.turn == C.GreetFail) && Open(Next(l, e))
    ensures Healthy(Next(l, e))
  {
    NextInv(l, e);
    PoliteStep(l, e);
    SociableStep(l.Near(e.side), e);
  }

  lemma {:induction false} HealthyRun(l: Link, es: seq<Event>)
    requires Healthy(l) && Run(l, es).Some? && Unbroken(l, es)
    requires forall e :: e in es ==> CalmEvent(e)
    ensures Healthy(Run(l, es).value)
    decreases |es|
  {
    if es != [] {
      assert CalmEvent(es[0]);
      HealthyStep(l, es[0]);
      HealthyRun(Next(l, es[0]), es[1..]);
    }
  }

  /** Between honest ends with room in their queues, the normal turn of an unsettled end does not
      close it. */
  lemma NormalTurnHolds(near: End, far: C.Conn)
    requires C.Inv(near.conn, near.channel) && InOrder(near.conn, far) && Sociable(near)
    requires forall f :: f in far.sent ==> Courteous(f)
    requires !Settled(near.conn, far)
    ensures var t := NormalTurn(near.conn, Unread(near.conn, far));
            && C.Enabled(near.conn, t, near.channel) && t != C.GreetFail
            && C.HoldsReceiver(C.Next(near.conn, t, near.channel))
  {
    var c, u := near.conn, Unread(near.conn, far);
    NormalTurnEnabled(c, u, near.channel);
    if NormalTurn(c, u) == C.TakeQueue {
      QueuedWasSent(c, near.channel, far);
      CourteousReply(c.inbox.queue[0]);
    }
  }

  lemma QueuedWasSent(near: C.Conn, ch: C.Broadcast, far: C.Conn)
    requires C.Inv(near, ch) && InOrder(near, far) && near.inbox.queue != []
    ensures near.inbox.queue[0] in far.sent
  {
    var b, h := near.inbox, C.InHand(near.handler);
    assert C.FramesOf(b.items) == b.handled + h + b.queue + b.rejected;
    assert C.FramesOf(b.items)[|b.handled + h|] == b.queue[0];
  }

  /** One normal turn of an unsettled end of a healthy link. */
  lemma HealthyTurn(l: Link, s: Side) returns (e: Event)
    requires Healthy(l) && !Settled(l.Near(s).conn, l.Far(s).conn)
    ensures e.Act? && e.turn != C.GreetFail && Normal(e.turn) && Enabled(l, e)
    ensures Healthy(Next(l, e)) && Potential(Next(l, e)) < Potential(l)
  {
    var c, u := l.Near(s).conn, Unread(l.Near(s).conn, l.Far(s).conn);
    NormalTurnEnabled(c, u, l.Near(s).channel);
    NormalTurnHolds(l.Near(s), l.Far(s).conn);
    e := Act(s, NormalTurn(c, u));
    HealthyStep(l, e);
    PotentialStep(l, e);
  }

  /** From any healthy state some sequence of normal turns settles both ends. */
  lemma {:induction false} Settles(l: Link) returns (es: seq<Event>)
    requires Healthy(l)
    ensures Run(l, es).Some? && Unbroken(l, es) && |es| <= Potential(l)
    ensures forall e :: e in es ==> e.Act? && Normal(e.turn)
    ensures var m := Run(l, es).value;
            Healthy(m) && Settled(m.left.conn, m.right.conn) && Settled(m.right.conn, m.left.conn)
    decreases Potential(l)
  {
    es := [];
    if !(Settled(l.left.conn, l.right.conn) && Settled(l.right.conn, l.left.conn)) {
      var s := if Settled(l.left.conn, l.right.conn) then Right else Left;
      var e := HealthyTurn(l, s);
      var rest := Settles(Next(l, e));
      es := [e] + rest;
      assert es[1..] == rest;
    }
  }

  lemma {:induction false} RunConcat(l: Link, es: seq<Event>, more: seq<Event>)
    requires Run(l, es).Some?
    ensures Run(l, es + more) == Run(Run(l, es).value, more)
    ensures Unbroken(l, es) && Unbroken(Run(l, es).value, more) ==> Unbroken(l, es + more)
    decreases |es|
  {
    if es == [] {
      assert es + more == more;
    } else {
      assert (es + more)[1..] == es[1..] + more;
      RunConcat(Next(l, es[0]), es[1..], more);
    }
  }

  /** What an end has handled when the handshake is complete. */
  ghost predicate Acquainted(near: C.Conn, far: C.Conn) {
    && CaughtUp(near, far)
    && Total(near.inbox.handled, CountHelo) == 1 && Total(near.inbox.handled, CountOleh) == 1
  }

  lemma SettledIsAcquainted(l: Link)
    requires Healthy(l) && Settled(l.left.conn, l.right.conn) && Settled(l.right.conn, l.left.conn)
    ensures Acquainted(l.left.conn, l.right.conn) && Acquainted(l.right.conn, l.left.conn)
  {
    SettledIsCaughtUp(l);
    HandshakeCompletes(l, []);
  }

  /** From a healthy state, some sequence of normal turns completes the handshake. */
  lemma Completes(l: Link) returns (es: seq<Event>)
    requires Healthy(l)
    ensures Run(l, es).Some? && Unbroken(l, es) && |es| <= Potential(l)
    ensures forall e :: e in es ==> e.Act? && Normal(e.turn)
    ensures var m := Run(l, es).value;
            && Settled(m.left.conn, m.right.conn) && Settled(m.right.conn, m.left.conn)
            && Acquainted(m.left.conn, m.right.conn) && Acquainted(m.right.conn, m.left.conn)
  {
    es := Settles(l);
    SettledIsAcquainted(Run(l, es).value);
  }

  /** Any run of two honest ends in which nothing has failed yet, however it was scheduled and
      whatever heartbeats were broadcast, can be continued without a failure, by turns alone and
      no more of them than its potential, to a state where both ends are settled and each has
      handled all the other sent: exactly one `helo` and one `oleh` among it. */
  lemma HandshakeCanComplete(l: Link, es: seq<Event>) returns (more: seq<Event>)
    requires Healthy(l) && Run(l, es).Some? && Unbroken(l, es)
    requires forall e :: e in es ==> CalmEvent(e)
    ensures Run(l, es + more).Some? && Unbroken(l, es + more)
    ensures |more| <= Potential(Run(l, es).value) && forall e :: e in more ==> e.Act? && Normal(e.turn)
    ensures var m := Run(l, es + more).value;
            && Settled(m.left.conn, m.right.conn) && Settled(m.right.conn, m.left.conn)
            && Acquainted(m.left.conn, m.right.conn) && Acquainted(m.right.conn, m.left.conn)
  {
    HealthyRun(l, es);
    more := Completes(Run(l, es).value);
    RunConcat(l, es, more);
  }
}
