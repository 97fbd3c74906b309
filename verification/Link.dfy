/** Two connection tasks joined by a pair of FIFO byte streams: what each reads is what the
    other's sink accepted, in order. Either end may break at any moment. */
module Link {
  import opened Wrappers
  import opened Protocol
  import C = Connection

  datatype End = End(conn: C.Conn, channel: C.Broadcast)

  datatype Side = Left | Right

  datatype Link = Link(left: End, right: End) {
    function Near(s: Side): End {
      if s.Left? then left else right
    }

    function Far(s: Side): End {
      if s.Left? then right else left
    }

    function Set(s: Side, e: End): Link {
      if s.Left? then Link(e, right) else Link(left, e)
    }
  }

  datatype Event =
    | Act(side: Side, turn: C.Event)
    | Publish(side: Side, frame: Frame)   // something is broadcast at that end's node
    | CloseChannel(side: Side)

  function Fresh(maxPending: nat, window: nat): End {
    var ch := C.Broadcast([], window, true);
    End(C.Spawn(maxPending, ch), ch)
  }

  /** The other end's frames not yet read. */
  function Unread(near: C.Conn, far: C.Conn): seq<Frame> {
    var n := |C.FramesOf(near.inbox.items)|;
    if n <= |far.sent| then far.sent[n..] else []
  }

  predicate Enabled(l: Link, e: Event) {
    match e
    case Act(s, t) =>
      && C.Enabled(l.Near(s).conn, t, l.Near(s).channel)
      && (t.Read? && t.item.Data? ==>
            var u := Unread(l.Near(s).conn, l.Far(s).conn);
            u != [] && t.item.frame == u[0])
    case Publish(s, _) => l.Near(s).channel.open
    case CloseChannel(s) => l.Near(s).channel.open
  }

  function NextEnd(end: End, e: Event): End
    requires e.Act? ==> C.Enabled(end.conn, e.turn, end.channel)
  {
    match e
    case Act(_, t) => end.(conn := C.Next(end.conn, t, end.channel))
    case Publish(_, f) => end.(channel := end.channel.(log := end.channel.log + [f]))
    case CloseChannel(_) => end.(channel := end.channel.(open := false))
  }

  function Next(l: Link, e: Event): Link
    requires Enabled(l, e)
  {
    l.Set(e.side, NextEnd(l.Near(e.side), e))
  }

  function Run(l: Link, es: seq<Event>): Option<Link>
    decreases |es|
  {
    if es == [] then Some(l)
    else if Enabled(l, es[0]) then Run(Next(l, es[0]), es[1..])
    else None
  }

  // ---------------------------------------------------------------- invariant

  /** What `near` has read is a prefix of what `far` has sent. */
  ghost predicate InOrder(near: C.Conn, far: C.Conn) {
    C.FramesOf(near.inbox.items) <= far.sent
  }

  ghost predicate Inv(l: Link) {
    && C.Inv(l.left.conn, l.left.channel) && C.Inv(l.right.conn, l.right.channel)
    && InOrder(l.left.conn, l.right.conn) && InOrder(l.right.conn, l.left.conn)
  }

  lemma FreshInv(maxLeft: nat, maxRight: nat, windowLeft: nat, windowRight: nat)
    ensures Inv(Link(Fresh(maxLeft, windowLeft), Fresh(maxRight, windowRight)))
  {
    C.SpawnInv(maxLeft, C.Broadcast([], windowLeft, true));
    C.SpawnInv(maxRight, C.Broadcast([], windowRight, true));
  }

  lemma EndInv(end: End, e: Event)
    requires C.Inv(end.conn, end.channel) && (e.Act? ==> C.Enabled(end.conn, e.turn, end.channel))
    ensures C.Inv(NextEnd(end, e).conn, NextEnd(end, e).channel)
    ensures end.conn.sent <= NextEnd(end, e).conn.sent
  {
    if e.Act? {
      C.NextInv(end.conn, e.turn, end.channel);
      C.OutputSent(end.conn, e.turn, end.channel);
    } else {
      C.ExtendInv(end.conn, end.channel, NextEnd(end, e).channel);
    }
  }

  lemma NextInOrder(l: Link, e: Event)
    requires Enabled(l, e)
    requires InOrder(l.Near(e.side).conn, l.Far(e.side).conn)
    ensures InOrder(NextEnd(l.Near(e.side), e).conn, l.Far(e.side).conn)
  {
    if e.Act? {
      var near := l.Near(e.side);
      C.NextItems(near.conn, e.turn, near.channel);
      if e.turn.Read? {
        C.FramesOfAppend(near.conn.inbox.items, e.turn.item);
      } else {
        assert near.conn.inbox.items + [] == near.conn.inbox.items;
      }
    }
  }

  lemma NextInv(l: Link, e: Event)
    requires Inv(l) && Enabled(l, e)
    ensures Inv(Next(l, e))
  {
    EndInv(l.Near(e.side), e);
    NextInOrder(l, e);
    InOrderGrows(l.Far(e.side).conn, l.Near(e.side).conn, NextEnd(l.Near(e.side), e).conn);
  }

  lemma InOrderGrows(near: C.Conn, far: C.Conn, next: C.Conn)
    requires InOrder(near, far) && far.sent <= next.sent
    ensures InOrder(near, next)
  {
  }

  lemma {:induction false} RunInv(l: Link, es: seq<Event>)
    requires Inv(l) && Run(l, es).Some?
    ensures Inv(Run(l, es).value)
    decreases |es|
  {
    if es != [] {
      NextInv(l, es[0]);
      RunInv(Next(l, es[0]), es[1..]);
    }
  }
}
