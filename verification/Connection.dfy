/** One connection task as a state machine (node/connection/src/lib.rs, `start` and the two
    loops it runs side by side).

    A step is one turn between two await points: `Enabled` says whether the code can take the
    turn the scheduler or the environment supplies, and `Next` where it leads. */
module Connection {
  import opened Wrappers
  import opened Protocol
  import opened Sequences

  /** What `reader.next().await` yields. */
  datatype Item = Data(frame: Frame) | IoError | Eof

  datatype Phase =
    | Opening         // spawned, not yet registered
    | Refused         // returned without registering
    | Greeting        // awaiting the opening send
    | Running         // inside the outer select
    | Closing         // select over, awaiting `writer.close()`
    | Unregistering   // writer closed, about to call `manager.remove`
    | Done
    | Panicked        // a select with every branch disabled

  /** Where the message handler waits. A sink's `send` first accepts the frame, then flushes
      it; `accepted` tells which of the two it is waiting for. Once the outer select is over
      the value tells where the handler was when it was dropped. */
  datatype Handler =
    | Selecting(queueOn: bool, broadcastOn: bool)
    | Replying(frame: Frame, reply: Frame, accepted: bool)
    | Forwarding(frame: Frame, accepted: bool)
    | Stopped(frame: Frame)

  /** The broadcast channel: everything ever published, of which the last `window` entries
      are retained. `open` while some sender exists. */
  datatype Broadcast = Broadcast(log: seq<Frame>, window: nat, open: bool) {
    predicate Overwritten(k: int) {
      k + window < |log|
    }
  }

  predicate Extends(next: Broadcast, ch: Broadcast) {
    ch.log <= next.log && next.window == ch.window && (next.open ==> ch.open)
  }

  /** What the task has taken in. */
  datatype Inbox = Inbox(
    maxPending: nat,
    queue: seq<Frame>,      // the bounded channel between the two loops
    items: seq<Item>,       // every item the reader yielded
    handled: seq<Frame>,    // frames `handle_received` finished without error
    rejected: seq<Frame>)   // a frame `try_send` could not queue

  /** The task's broadcast receiver. */
  datatype Feed = Feed(
    subscribed: nat,        // position of the broadcast log at subscription
    cursor: nat,            // next position to receive
    delivered: seq<int>,    // positions of the broadcasts the sink accepted
    forwarded: seq<Frame>,  // those broadcasts
    lagged: bool)           // a receive has reported lag

  datatype Conn = Conn(
    phase: Phase,
    handler: Handler,
    senderAlive: bool,      // the read loop still owns the queue's sender
    closed: bool,           // `channel_receiver.close()` was called
    inbox: Inbox,
    feed: Feed,
    heloSent: bool,         // the sink accepted the opening message
    sent: seq<Frame>,       // every frame the sink accepted
    answered: seq<Frame>)   // those of them that are replies

  datatype Event =
    | Register | Refuse
    | GreetAccept | GreetDone | GreetFail
    | Read(item: Item) | TakeQueue | TakeBroadcast
    | SinkAccept | SinkDone | SinkFail
    | WriterClosed | Unregister

  const FRESH := Selecting(true, true)

  function Spawn(maxPending: nat, ch: Broadcast): Conn {
    Conn(Opening, FRESH, true, false, Inbox(maxPending, [], [], [], []),
         Feed(|ch.log|, |ch.log|, [], [], false), false, [], [])
  }

  /** The task still owns its broadcast receiver: it is moved into the message handler and
      dropped with it when the outer select ends. */
  predicate HoldsReceiver(c: Conn) {
    c.phase.Opening? || c.phase.Greeting? || c.phase.Running?
  }

  /** From a successful insert up to the removal. */
  predicate Live(c: Conn) {
    c.phase.Greeting? || c.phase.Running? || c.phase.Closing? || c.phase.Unregistering?
  }

  /** One of the two loops returned: both futures are dropped, and the channel closed. */
  function Finish(c: Conn): Conn {
    c.(phase := Closing, senderAlive := false, closed := true)
  }

  /** A branch of the inner select whose pattern does not match is disabled until the next
      iteration; with no branch left the macro panics. */
  function Disable(c: Conn, queueOn: bool, broadcastOn: bool): Conn {
    if queueOn || broadcastOn then c.(handler := Selecting(queueOn, broadcastOn))
    else c.(phase := Panicked)
  }

  function ReadItem(c: Conn, item: Item): Conn {
    var inbox := c.inbox.(items := c.inbox.items + [item]);
    match item
    case Data(f) =>
      if c.closed || |inbox.queue| >= inbox.maxPending then
        Finish(c.(inbox := inbox.(rejected := [f])))
      else
        c.(inbox := inbox.(queue := inbox.queue + [f]))
    case _ => Finish(c.(inbox := inbox))
  }

  /** `handle_received` on frame `f`, just popped from the queue, up to its first await. */
  function Handle(c: Conn, f: Frame): Conn {
    match React(f)
    case Close => Finish(c.(handler := Stopped(f)))
    case Silent => c.(inbox := c.inbox.(handled := c.inbox.handled + [f]), handler := FRESH)
    case Answer(r) => c.(handler := Replying(f, r, false))
  }

  function Pop(c: Conn): Conn
    requires c.inbox.queue != []
  {
    c.(inbox := c.inbox.(queue := c.inbox.queue[1..]))
  }

  predicate ReceiveReady(c: Conn) {
    c.handler.Selecting? && c.handler.queueOn && (c.inbox.queue != [] || c.closed || !c.senderAlive)
  }

  function Receive(c: Conn): Conn
    requires ReceiveReady(c)
  {
    if c.inbox.queue != [] then Handle(Pop(c), c.inbox.queue[0])
    else Disable(c, false, c.handler.broadcastOn)
  }

  predicate ReceiveBroadcastReady(c: Conn, ch: Broadcast) {
    && c.handler.Selecting? && c.handler.broadcastOn
    && (c.feed.cursor < |ch.log| || !ch.open)
  }

  function ReceiveBroadcast(c: Conn, ch: Broadcast): Conn
    requires ReceiveBroadcastReady(c, ch)
  {
    if ch.Overwritten(c.feed.cursor) then
      var feed := c.feed.(cursor := |ch.log| - ch.window, lagged := true);
      Disable(c.(feed := feed), c.handler.queueOn, false)
    else if c.feed.cursor < |ch.log| then
      var feed := c.feed.(cursor := c.feed.cursor + 1);
      c.(feed := feed, handler := Forwarding(ch.log[c.feed.cursor], false))
    else
      Disable(c, c.handler.queueOn, false)
  }

  predicate Sending(h: Handler, accepted: bool) {
    (h.Replying? || h.Forwarding?) && h.accepted == accepted
  }

  function Accept(c: Conn): Conn
    requires Sending(c.handler, false)
  {
    match c.handler
    case Replying(f, r, _) =>
      c.(sent := c.sent + [r], answered := c.answered + [r], handler := Replying(f, r, true))
    case Forwarding(f, _) =>
      var feed := c.feed.(delivered := c.feed.delivered + [c.feed.cursor - 1],
                          forwarded := c.feed.forwarded + [f]);
      c.(sent := c.sent + [f], handler := Forwarding(f, true), feed := feed)
  }

  function Flush(c: Conn): Conn
    requires Sending(c.handler, true)
  {
    if c.handler.Replying? then
      c.(inbox := c.inbox.(handled := c.inbox.handled + [c.handler.frame]), handler := FRESH)
    else
      c.(handler := FRESH)
  }

  /** Whether the code can take turn `e` now. */
  predicate Enabled(c: Conn, e: Event, ch: Broadcast) {
    match e
    case Register => c.phase.Opening?
    case Refuse => c.phase.Opening?
    case GreetAccept => c.phase.Greeting? && !c.heloSent
    case GreetDone => c.phase.Greeting? && c.heloSent
    case GreetFail => c.phase.Greeting?
    case Read(_) => c.phase.Running?
    case TakeQueue => c.phase.Running? && ReceiveReady(c)
    case TakeBroadcast => c.phase.Running? && ReceiveBroadcastReady(c, ch)
    case SinkAccept => c.phase.Running? && Sending(c.handler, false)
    case SinkDone => c.phase.Running? && Sending(c.handler, true)
    case SinkFail => c.phase.Running? && (c.handler.Replying? || c.handler.Forwarding?)
    case WriterClosed => c.phase.Closing?
    case Unregister => c.phase.Unregistering?
  }

  /** The state after turn `e`. The result of the opening send is ignored. */
  function Next(c: Conn, e: Event, ch: Broadcast): Conn
    requires Enabled(c, e, ch)
  {
    match e
    case Register => c.(phase := Greeting)
    case Refuse => c.(phase := Refused)
    case GreetAccept => c.(heloSent := true, sent := [HELO])
    case GreetDone => c.(phase := Running)
    case GreetFail => c.(phase := Running)
    case Read(item) => ReadItem(c, item)
    case TakeQueue => Receive(c)
    case TakeBroadcast => ReceiveBroadcast(c, ch)
    case SinkAccept => Accept(c)
    case SinkDone => Flush(c)
    case SinkFail => Finish(c)
    case WriterClosed => c.(phase := Unregistering)
    case Unregister => c.(phase := Done)
  }

  // ---------------------------------------------------------------- invariants

  function FramesOf(items: seq<Item>): seq<Frame> {
    if items == [] then []
    else
      var last := items[|items| - 1];
      FramesOf(items[..|items| - 1]) + (if last.Data? then [last.frame] else [])
  }

  lemma FramesOfAppend(items: seq<Item>, item: Item)
    ensures FramesOf(items + [item]) == FramesOf(items) + (if item.Data? then [item.frame] else [])
  {
    assert (items + [item])[..|items|] == items;
  }

  ghost predicate AllData(items: seq<Item>) {
    forall i :: 0 <= i < |items| ==> items[i].Data?
  }

  ghost predicate DataBeforeLast(items: seq<Item>) {
    forall i :: 0 <= i < |items| - 1 ==> items[i].Data?
  }

  /** The frame taken from the queue whose handling has not finished. */
  function InHand(h: Handler): seq<Frame> {
    match h
    case Replying(f, _, _) => [f]
    case Stopped(f) => [f]
    case _ => []
  }

  /** The reply already accepted for a frame still in hand. */
  function PartialReply(h: Handler): seq<Frame> {
    match h
    case Replying(_, r, true) => [r]
    case _ => []
  }

  /** The broadcast received and not yet accepted by the sink. */
  function Held(h: Handler): Option<Frame> {
    if h.Forwarding? && !h.accepted then Some(h.frame) else None
  }

  /** Before the select: nothing read, received, or sent beyond the greeting. */
  predicate Untouched(c: Conn) {
    && c.handler == FRESH
    && c.inbox == Inbox(c.inbox.maxPending, [], [], [], []) && c.senderAlive && !c.closed
    && c.feed.forwarded == [] && c.answered == []
    && c.sent == (if c.heloSent then [HELO] else [])
  }

  /** Past the select. */
  predicate Over(c: Conn) {
    c.phase.Closing? || c.phase.Unregistering? || c.phase.Done?
  }

  /** Why a select can end: the stream failed or ended, the peer flooded the queue, a frame
      could not be handled, or a send was under way (and failed, or was cut off). */
  ghost predicate Cause(c: Conn) {
    || !AllData(c.inbox.items) || c.inbox.rejected != []
    || c.handler.Stopped? || c.handler.Replying? || c.handler.Forwarding?
  }

  /** What each phase knows: while the select runs the sender is alive and the channel open,
      so no queue receive can come back empty-handed and no select runs out of branches. */
  ghost predicate PhaseInv(c: Conn) {
    && c.phase != Panicked
    && (c.phase.Opening? || c.phase.Refused? ==> !c.heloSent)
    && (c.phase.Opening? || c.phase.Refused? || c.phase.Greeting? ==> Untouched(c))
    && (c.phase.Running? ==>
          && c.senderAlive && !c.closed && c.inbox.rejected == []
          && !c.handler.Stopped? && (c.handler.Selecting? ==> c.handler.queueOn)
          && AllData(c.inbox.items))
    && (Over(c) ==> !c.senderAlive && c.closed && Cause(c))
  }

  ghost predicate HandlerInv(h: Handler) {
    match h
    case Stopped(f) => React(f) == Close
    case Replying(f, r, _) => React(f) == Answer(r)
    case _ => true
  }

  /** Every frame the reader yielded is accounted for, in order, and the queue is bounded. */
  ghost predicate InboxInv(b: Inbox, inHand: seq<Frame>) {
    && FramesOf(b.items) == b.handled + inHand + b.queue + b.rejected
    && |b.queue| <= b.maxPending
    && |b.rejected| <= 1 && (b.rejected != [] ==> |b.queue| == b.maxPending)
    && DataBeforeLast(b.items)
    && (forall f :: f in b.handled ==> React(f) != Close)
  }

  /** The replies sent are those the handled frames call for, in order, and possibly the one
      for the frame in hand. */
  ghost predicate AnswerInv(answered: seq<Frame>, handled: seq<Frame>, h: Handler) {
    answered == Replies(handled) + PartialReply(h)
  }

  /** The output is the greeting, then a merge of the replies and the broadcasts. */
  ghost predicate OutputInv(heloSent: bool, sent: seq<Frame>, answered: seq<Frame>, forwarded: seq<Frame>) {
    if heloSent then sent != [] && sent[0] == HELO && IsMerge(sent[1..], answered, forwarded)
    else IsMerge(sent, answered, forwarded)
  }

  /** Position `k` was delivered, or is in hand, or was overwritten before it was received. */
  ghost predicate Accounted(feed: Feed, held: bool, ch: Broadcast, k: int) {
    k in feed.delivered || (held && k == feed.cursor - 1) || ch.Overwritten(k)
  }

  /** Delivered broadcasts are log entries, in log order and without repetition, and every
      position passed is accounted for; without a reported lag they are consecutive. */
  ghost predicate FeedInv(feed: Feed, held: Option<Frame>, ch: Broadcast) {
    var n := |feed.delivered|;
    var top := if held.Some? then feed.cursor - 1 else feed.cursor;
    && feed.subscribed <= top && feed.cursor <= |ch.log|
    && |feed.forwarded| == n
    && (forall i :: 0 <= i < n ==>
          feed.subscribed <= feed.delivered[i] < top && feed.forwarded[i] == ch.log[feed.delivered[i]])
    && (forall i, j :: 0 <= i < j < n ==> feed.delivered[i] < feed.delivered[j])
    && (forall k :: feed.subscribed <= k < feed.cursor ==> Accounted(feed, held.Some?, ch, k))
    && (held.Some? ==> held.value == ch.log[feed.cursor - 1])
    && (!feed.lagged ==>
          n == top - feed.subscribed
          && forall i :: 0 <= i < n ==> feed.delivered[i] == feed.subscribed + i)
  }

  ghost predicate Inv(c: Conn, ch: Broadcast) {
    && PhaseInv(c)
    && HandlerInv(c.handler)
    && InboxInv(c.inbox, InHand(c.handler))
    && OutputInv(c.heloSent, c.sent, c.answered, c.feed.forwarded)
    && AnswerInv(c.answered, c.inbox.handled, c.handler)
    && FeedInv(c.feed, Held(c.handler), ch)
  }

  lemma SpawnInv(maxPending: nat, ch: Broadcast)
    ensures Inv(Spawn(maxPending, ch), ch)
  {
  }

  lemma ReadInbox(b: Inbox, inHand: seq<Frame>, item: Item, next: Inbox)
    requires InboxInv(b, inHand) && AllData(b.items) && b.rejected == []
    requires next.items == b.items + [item] && next.handled == b.handled
    requires next.maxPending == b.maxPending
    requires
      || (!item.Data? && next.queue == b.queue && next.rejected == [])
      || (item.Data? && next.queue == b.queue && next.rejected == [item.frame] && |b.queue| >= b.maxPending)
      || (item.Data? && next.queue == b.queue + [item.frame] && next.rejected == [] && |b.queue| < b.maxPending)
    ensures InboxInv(next, inHand)
    ensures item.Data? ==> AllData(next.items)
  {
    FramesOfAppend(b.items, item);
  }

  lemma TakeInbox(b: Inbox, next: Inbox)
    requires InboxInv(b, []) && b.queue != [] && b.rejected == [] && next == b.(queue := b.queue[1..])
    ensures InboxInv(next, [b.queue[0]])
  {
    var h, f, q, r := b.handled, b.queue[0], b.queue[1..], b.rejected;
    assert h + [] + b.queue + r == h + [f] + q + r;
  }

  lemma FinishInbox(b: Inbox, f: Frame, next: Inbox)
    requires InboxInv(b, [f]) && React(f) != Close && next == b.(handled := b.handled + [f])
    ensures InboxInv(next, [])
  {
    assert next.handled + [] == b.handled + [f];
  }

  lemma AdvanceFeed(feed: Feed, ch: Broadcast, next: Feed, held: Option<Frame>)
    requires FeedInv(feed, None, ch)
    requires
      || (ch.Overwritten(feed.cursor) && held == None
          && next == feed.(cursor := |ch.log| - ch.window, lagged := true))
      || (feed.cursor < |ch.log| && held == Some(ch.log[feed.cursor])
          && next == feed.(cursor := feed.cursor + 1))
    ensures FeedInv(next, held, ch)
  {
    forall k | next.subscribed <= k < next.cursor ensures Accounted(next, held.Some?, ch, k) {
      assert k < feed.cursor ==> Accounted(feed, false, ch, k);
    }
  }

  lemma AcceptFeed(feed: Feed, f: Frame, ch: Broadcast, next: Feed)
    requires FeedInv(feed, Some(f), ch)
    requires next == feed.(delivered := feed.delivered + [feed.cursor - 1], forwarded := feed.forwarded + [f])
    ensures FeedInv(next, None, ch)
  {
    forall k | next.subscribed <= k < next.cursor ensures Accounted(next, false, ch, k) {
      assert Accounted(feed, true, ch, k);
      assert next.delivered[|feed.delivered|] == feed.cursor - 1;
    }
  }

  lemma AcceptOutput(heloSent: bool, sent: seq<Frame>, answered: seq<Frame>, forwarded: seq<Frame>, f: Frame)
    requires OutputInv(heloSent, sent, answered, forwarded)
    ensures OutputInv(heloSent, sent + [f], answered + [f], forwarded)
    ensures OutputInv(heloSent, sent + [f], answered, forwarded + [f])
  {
    var body := if heloSent then sent[1..] else sent;
    assert heloSent ==> (sent + [f])[1..] == body + [f];
    MergeAppendLeft(body, answered, forwarded, f);
    MergeAppendRight(body, answered, forwarded, f);
  }

  lemma NextPhase(c: Conn, e: Event, ch: Broadcast)
    requires PhaseInv(c) && Enabled(c, e, ch)
    ensures PhaseInv(Next(c, e, ch))
  {
    if e.Read? {
      assert Next(c, e, ch).inbox.items[|c.inbox.items|] == e.item;
    }
  }

  lemma HandleHandler(c: Conn, f: Frame)
    ensures HandlerInv(Handle(c, f).handler)
  {
  }

  lemma NextHandler(c: Conn, e: Event, ch: Broadcast)
    requires HandlerInv(c.handler) && Enabled(c, e, ch)
    ensures HandlerInv(Next(c, e, ch).handler)
  {
    if e == TakeQueue && c.inbox.queue != [] {
      HandleHandler(Pop(c), c.inbox.queue[0]);
    } else if e == SinkAccept && c.handler.Replying? {
    } else {
      var h := Next(c, e, ch).handler;
      assert h == c.handler || h.Selecting? || h.Forwarding?;
    }
  }

  lemma ReadItemInbox(c: Conn, item: Item)
    requires PhaseInv(c) && c.phase.Running? && InboxInv(c.inbox, InHand(c.handler))
    ensures var next := ReadItem(c, item);
            next.handler == c.handler && InboxInv(next.inbox, InHand(next.handler))
  {
    ReadInbox(c.inbox, InHand(c.handler), item, ReadItem(c, item).inbox);
  }

  lemma ReceiveInbox(c: Conn)
    requires ReceiveReady(c) && c.inbox.queue != [] && c.inbox.rejected == [] && InboxInv(c.inbox, [])
    ensures var next := Receive(c); InboxInv(next.inbox, InHand(next.handler))
  {
    var f, b := c.inbox.queue[0], Pop(c).inbox;
    TakeInbox(c.inbox, b);
    if React(f).Silent? {
      FinishInbox(b, f, Receive(c).inbox);
    }
  }

  lemma FlushInbox(c: Conn)
    requires Sending(c.handler, true) && HandlerInv(c.handler) && InboxInv(c.inbox, InHand(c.handler))
    ensures var next := Flush(c); InboxInv(next.inbox, InHand(next.handler))
  {
    if c.handler.Replying? {
      FinishInbox(c.inbox, c.handler.frame, Flush(c).inbox);
    }
  }

  lemma NextInbox(c: Conn, e: Event, ch: Broadcast)
    requires PhaseInv(c) && HandlerInv(c.handler) && InboxInv(c.inbox, InHand(c.handler))
    requires Enabled(c, e, ch)
    ensures var next := Next(c, e, ch); InboxInv(next.inbox, InHand(next.handler))
  {
    match e
    case Read(item) => ReadItemInbox(c, item);
    case TakeQueue => ReceiveInbox(c);
    case SinkDone => FlushInbox(c);
    case _ =>
      var next := Next(c, e, ch);
      assert next.inbox == c.inbox && InHand(next.handler) == InHand(c.handler);
  }

  lemma AnswerHandled(answered: seq<Frame>, handled: seq<Frame>, h: Handler, f: Frame)
    requires AnswerInv(answered, handled, h)
    requires
      || (h.Selecting? && React(f).Silent?)
      || (h.Replying? && h.accepted && h.frame == f && React(f) == Answer(h.reply))
    ensures AnswerInv(answered, handled + [f], FRESH)
  {
    RepliesAppend(handled, f);
  }

  lemma NextAnswer(c: Conn, e: Event, ch: Broadcast)
    requires PhaseInv(c) && HandlerInv(c.handler) && AnswerInv(c.answered, c.inbox.handled, c.handler)
    requires Enabled(c, e, ch)
    ensures var next := Next(c, e, ch); AnswerInv(next.answered, next.inbox.handled, next.handler)
  {
    match e
    case TakeQueue =>
      if React(c.inbox.queue[0]).Silent? {
        AnswerHandled(c.answered, c.inbox.handled, c.handler, c.inbox.queue[0]);
      }
    case SinkDone =>
      if c.handler.Replying? {
        AnswerHandled(c.answered, c.inbox.handled, c.handler, c.handler.frame);
      }
    case _ =>
  }

  lemma NextOutput(c: Conn, e: Event, ch: Broadcast)
    requires PhaseInv(c) && OutputInv(c.heloSent, c.sent, c.answered, c.feed.forwarded)
    requires Enabled(c, e, ch)
    ensures var next := Next(c, e, ch); OutputInv(next.heloSent, next.sent, next.answered, next.feed.forwarded)
  {
    if e == SinkAccept {
      AcceptOutput(c.heloSent, c.sent, c.answered, c.feed.forwarded, Next(c, e, ch).sent[|c.sent|]);
    }
  }

  lemma AcceptKeepsFeed(c: Conn, ch: Broadcast)
    requires FeedInv(c.feed, Held(c.handler), ch) && Sending(c.handler, false)
    ensures var next := Accept(c); FeedInv(next.feed, Held(next.handler), ch)
  {
    if c.handler.Forwarding? {
      AcceptFeed(c.feed, c.handler.frame, ch, Accept(c).feed);
    }
  }

  lemma ReceiveKeepsFeed(c: Conn, ch: Broadcast)
    requires FeedInv(c.feed, Held(c.handler), ch) && ReceiveBroadcastReady(c, ch)
    ensures var next := ReceiveBroadcast(c, ch); FeedInv(next.feed, Held(next.handler), ch)
  {
    var next := ReceiveBroadcast(c, ch);
    if next.feed != c.feed {
      AdvanceFeed(c.feed, ch, next.feed, Held(next.handler));
    }
  }

  lemma NextFeed(c: Conn, e: Event, ch: Broadcast)
    requires FeedInv(c.feed, Held(c.handler), ch) && Enabled(c, e, ch)
    ensures var next := Next(c, e, ch); FeedInv(next.feed, Held(next.handler), ch)
  {
    match e
    case SinkAccept => AcceptKeepsFeed(c, ch);
    case TakeBroadcast => ReceiveKeepsFeed(c, ch);
    case _ =>
      var next := Next(c, e, ch);
      assert next.feed == c.feed && Held(next.handler) == Held(c.handler);
  }

  /** Every turn keeps the invariant. */
  lemma NextInv(c: Conn, e: Event, ch: Broadcast)
    requires Inv(c, ch) && Enabled(c, e, ch)
    ensures Inv(Next(c, e, ch), ch)
  {
    NextPhase(c, e, ch);
    NextHandler(c, e, ch);
    NextInbox(c, e, ch);
    NextAnswer(c, e, ch);
    NextOutput(c, e, ch);
    NextFeed(c, e, ch);
  }

  /** So does anything published, or the closing of the channel, between turns. */
  lemma ExtendInv(c: Conn, ch: Broadcast, next: Broadcast)
    requires Inv(c, ch) && Extends(next, ch)
    ensures Inv(c, next)
  {
    forall k | c.feed.subscribed <= k < c.feed.cursor
      ensures Accounted(c.feed, Held(c.handler).Some?, next, k)
    {
      assert Accounted(c.feed, Held(c.handler).Some?, ch, k);
    }
  }

  lemma NextItems(c: Conn, e: Event, ch: Broadcast)
    requires Enabled(c, e, ch)
    ensures Next(c, e, ch).inbox.items == c.inbox.items + (if e.Read? then [e.item] else [])
  {
    var next := Next(c, e, ch);
    if !e.Read? {
      assert next.inbox.items == c.inbox.items;
      assert c.inbox.items + [] == c.inbox.items;
    }
  }

  /** What a turn adds to the frames sent. */
  function Output(c: Conn, e: Event, ch: Broadcast): seq<Frame>
    requires Enabled(c, e, ch)
  {
    if e == GreetAccept then [HELO]
    else if e == SinkAccept && c.handler.Replying? then [c.handler.reply]
    else if e == SinkAccept then [c.handler.frame]
    else []
  }

  lemma OutputSent(c: Conn, e: Event, ch: Broadcast)
    requires Enabled(c, e, ch) && (e == GreetAccept ==> c.sent == [])
    ensures Next(c, e, ch).sent == c.sent + Output(c, e, ch)
  {
    if Output(c, e, ch) == [] {
      assert Next(c, e, ch).sent == c.sent;
    }
  }

  lemma NextKeepsSubscription(c: Conn, e: Event, ch: Broadcast)
    requires Enabled(c, e, ch)
    ensures Next(c, e, ch).feed.subscribed == c.feed.subscribed
  {
  }

  lemma NextKeepsBound(c: Conn, e: Event, ch: Broadcast)
    requires Enabled(c, e, ch)
    ensures Next(c, e, ch).inbox.maxPending == c.inbox.maxPending
  {
  }

  // ---------------------------------------------------------------- runs of one task

  /** A turn of the task, or something that happens to the broadcast channel in between. */
  datatype Move = Turn(event: Event) | Published(frame: Frame) | Dropped

  function ChannelAfter(ch: Broadcast, trace: seq<Move>): Broadcast {
    if trace == [] then ch
    else
      var before := ChannelAfter(ch, trace[..|trace| - 1]);
      match trace[|trace| - 1]
      case Turn(_) => before
      case Published(f) => before.(log := before.log + [f])
      case Dropped => before.(open := false)
  }

  /** The state a sequence of moves leads to, if every turn is enabled when it comes. */
  function Follow(c: Conn, trace: seq<Move>, ch: Broadcast): Option<Conn> {
    if trace == [] then Some(c)
    else
      var trace0, m := trace[..|trace| - 1], trace[|trace| - 1];
      var before, now := Follow(c, trace0, ch), ChannelAfter(ch, trace0);
      if before.Some? && m.Turn? then
        if Enabled(before.value, m.event, now) then Some(Next(before.value, m.event, now)) else None
      else before
  }

  lemma FollowTurn(c: Conn, trace: seq<Move>, ch: Broadcast, e: Event)
    requires Follow(c, trace, ch).Some? && Enabled(Follow(c, trace, ch).value, e, ChannelAfter(ch, trace))
    ensures Follow(c, trace + [Turn(e)], ch) == Some(Next(Follow(c, trace, ch).value, e, ChannelAfter(ch, trace)))
    ensures ChannelAfter(ch, trace + [Turn(e)]) == ChannelAfter(ch, trace)
  {
    assert (trace + [Turn(e)])[..|trace|] == trace;
  }

  lemma FollowOther(c: Conn, trace: seq<Move>, ch: Broadcast, m: Move)
    requires !m.Turn?
    ensures Follow(c, trace + [m], ch) == Follow(c, trace, ch)
    ensures var now := ChannelAfter(ch, trace);
            ChannelAfter(ch, trace + [m]) ==
            if m.Published? then now.(log := now.log + [m.frame]) else now.(open := false)
  {
    assert (trace + [m])[..|trace|] == trace;
  }

  lemma {:induction false} FollowInv(c: Conn, trace: seq<Move>, ch: Broadcast)
    requires Inv(c, ch) && Follow(c, trace, ch).Some?
    ensures Inv(Follow(c, trace, ch).value, ChannelAfter(ch, trace))
  {
    if trace != [] {
      var trace0, m := trace[..|trace| - 1], trace[|trace| - 1];
      FollowInv(c, trace0, ch);
      if m.Turn? {
        NextInv(Follow(c, trace0, ch).value, m.event, ChannelAfter(ch, trace0));
      } else {
        ExtendInv(Follow(c, trace0, ch).value, ChannelAfter(ch, trace0), ChannelAfter(ch, trace));
      }
    }
  }

  // ---------------------------------------------------------------- the course of a life

  function CountTurns(trace: seq<Move>, e: Event): nat {
    if trace == [] then 0
    else CountTurns(trace[..|trace| - 1], e) + (if trace[|trace| - 1] == Turn(e) then 1 else 0)
  }

  /** How often a task has been let in, entered its select, closed its writer and left the
      registry. */
  ghost predicate Passed(trace: seq<Move>, entered: nat, selected: nat, closed: nat, left: nat) {
    && CountTurns(trace, Register) == entered
    && CountTurns(trace, GreetDone) + CountTurns(trace, GreetFail) == selected
    && CountTurns(trace, WriterClosed) == closed && CountTurns(trace, Unregister) == left
  }

  ghost predicate Lived(c: Conn, trace: seq<Move>) {
    match c.phase
    case Opening => Passed(trace, 0, 0, 0, 0) && CountTurns(trace, Refuse) == 0
    case Refused => Passed(trace, 0, 0, 0, 0) && CountTurns(trace, Refuse) == 1
    case Greeting => Passed(trace, 1, 0, 0, 0)
    case Running => Passed(trace, 1, 1, 0, 0)
    case Closing => Passed(trace, 1, 1, 0, 0)
    case Unregistering => Passed(trace, 1, 1, 1, 0)
    case Done => Passed(trace, 1, 1, 1, 1)
    case Panicked => true
  }

  lemma CountTurnsAppend(trace: seq<Move>, m: Move, e: Event)
    ensures CountTurns(trace + [m], e) == CountTurns(trace, e) + (if m == Turn(e) then 1 else 0)
  {
    assert (trace + [m])[..|trace|] == trace;
  }

  /** The turns that mark the stages. */
  lemma StagesAppend(trace: seq<Move>, m: Move)
    ensures forall e | e in {Register, Refuse, GreetDone, GreetFail, WriterClosed, Unregister} ::
              CountTurns(trace + [m], e) == CountTurns(trace, e) + (if m == Turn(e) then 1 else 0)
  {
    forall e | e in {Register, Refuse, GreetDone, GreetFail, WriterClosed, Unregister}
      ensures CountTurns(trace + [m], e) == CountTurns(trace, e) + (if m == Turn(e) then 1 else 0)
    {
      CountTurnsAppend(trace, m, e);
    }
  }

  /** How a turn moves a task along. */
  lemma PhaseStep(c: Conn, e: Event, ch: Broadcast)
    requires Enabled(c, e, ch)
    ensures var p, q := c.phase, Next(c, e, ch).phase;
            match e
            case Register => p.Opening? && q.Greeting?
            case Refuse => p.Opening? && q.Refused?
            case GreetAccept => p.Greeting? && q.Greeting?
            case GreetDone => p.Greeting? && q.Running?
            case GreetFail => p.Greeting? && q.Running?
            case WriterClosed => p.Closing? && q.Unregistering?
            case Unregister => p.Unregistering? && q.Done?
            case _ => p.Running? && (q.Running? || q.Closing? || q.Panicked?)
  {
  }

  lemma LivedStep(c: Conn, trace: seq<Move>, e: Event, ch: Broadcast)
    requires Lived(c, trace) && Enabled(c, e, ch)
    ensures Lived(Next(c, e, ch), trace + [Turn(e)])
  {
    PhaseStep(c, e, ch);
    StagesAppend(trace, Turn(e));
  }

  /** In every run each stage of a task's life is passed once and in order: it is let in, enters
      its select, closes its writer and only then leaves the registry; or it is refused and does
      nothing more. */
  lemma {:induction false} LifeCycle(maxPending: nat, trace: seq<Move>, ch: Broadcast)
    requires Follow(Spawn(maxPending, ch), trace, ch).Some?
    ensures Lived(Follow(Spawn(maxPending, ch), trace, ch).value, trace)
  {
    if trace != [] {
      var trace0, m := trace[..|trace| - 1], trace[|trace| - 1];
      assert trace == trace0 + [m];
      LifeCycle(maxPending, trace0, ch);
      if m.Turn? {
        LivedStep(Follow(Spawn(maxPending, ch), trace0, ch).value, trace0, m.event, ChannelAfter(ch, trace0));
      } else {
        StagesAppend(trace0, m);
      }
    }
  }

  /** A select left without a branch panics: by a queue receive that finds the queue closed and
      empty, or a broadcast receive that fails to match, with the other branch disabled. */
  lemma ExhaustedSelectPanics(c: Conn, ch: Broadcast)
    requires c.phase.Running? && c.handler.Selecting?
    ensures c.handler == Selecting(true, false) && c.inbox.queue == [] && c.closed ==>
              Enabled(c, TakeQueue, ch) && Next(c, TakeQueue, ch).phase == Panicked
    ensures c.handler == Selecting(false, true) && (ch.Overwritten(c.feed.cursor)
              || (c.feed.cursor >= |ch.log| && !ch.open)) ==>
              Enabled(c, TakeBroadcast, ch) && Next(c, TakeBroadcast, ch).phase == Panicked
  {
  }

  lemma RunNeverPanics(maxPending: nat, trace: seq<Move>, ch: Broadcast)
    requires Follow(Spawn(maxPending, ch), trace, ch).Some?
    ensures Follow(Spawn(maxPending, ch), trace, ch).value.phase != Panicked
  {
    SpawnInv(maxPending, ch);
    FollowInv(Spawn(maxPending, ch), trace, ch);
  }

  /** A turn inside the select stays there or ends it, and the end of the stream ends it. */
  lemma RunningTurn(c: Conn, e: Event, ch: Broadcast)
    requires c.phase.Running? && Enabled(c, e, ch)
    ensures var next := Next(c, e, ch);
            && (next.phase.Running? || next.phase.Closing? || next.phase.Panicked?)
            && (e.Read? && !e.item.Data? ==> next.phase.Closing?)
            && |next.inbox.items| == |c.inbox.items| + (if e.Read? then 1 else 0)
  {
    NextItems(c, e, ch);
  }

  // ---------------------------------------------------------------- bounded reads

  /** The reader yields the items of `stream` and then reports the end of the stream. */
  ghost predicate Consumes(items: seq<Item>, stream: seq<Item>) {
    forall i :: 0 <= i < |items| ==> items[i] == if i < |stream| then stream[i] else Eof
  }

  lemma {:induction false} FramesOfPrefix(items: seq<Item>, stream: seq<Item>)
    requires Consumes(items, stream) && |items| <= |stream| + 1
    ensures FramesOf(items) <= FramesOf(stream) && |FramesOf(items)| <= |stream|
    decreases |stream| + |items|
  {
    if |items| == |stream| + 1 {
      assert items == items[..|stream|] + [Eof];
      FramesOfAppend(items[..|stream|], Eof);
      FramesOfPrefix(items[..|stream|], stream);
    } else if |items| == |stream| {
      assert items == stream;
      FramesOfLength(items);
    } else {
      FramesOfPrefix(items, stream[..|stream| - 1]);
    }
  }

  lemma {:induction false} FramesOfLength(items: seq<Item>)
    ensures |FramesOf(items)| <= |items|
  {
    if items != [] {
      FramesOfLength(items[..|items| - 1]);
    }
  }

  lemma ConsumedLength(items: seq<Item>, stream: seq<Item>)
    requires Consumes(items, stream) && DataBeforeLast(items)
    ensures |items| <= |stream| + 1
    ensures |items| == |stream| + 1 ==> !AllData(items)
  {
    assert |items| > |stream| ==> items[|stream|] == Eof;
  }

  /** On a finite stream of n items the task reads at most n + 1 times and handles a prefix of
      the stream's frames. */
  lemma ReadsBounded(c: Conn, ch: Broadcast, stream: seq<Item>)
    requires Inv(c, ch) && Consumes(c.inbox.items, stream)
    ensures |c.inbox.items| <= |stream| + 1
    ensures c.inbox.handled <= FramesOf(stream) && |c.inbox.handled| <= |stream|
    ensures |c.inbox.items| == |stream| + 1 ==> !HoldsReceiver(c)
  {
    InboxBounded(c.inbox, InHand(c.handler), stream);
  }

  lemma InboxBounded(b: Inbox, inHand: seq<Frame>, stream: seq<Item>)
    requires InboxInv(b, inHand) && Consumes(b.items, stream)
    ensures |b.items| <= |stream| + 1 && b.handled <= FramesOf(stream) && |b.handled| <= |stream|
    ensures |b.items| == |stream| + 1 ==> !AllData(b.items)
  {
    ConsumedLength(b.items, stream);
    FramesOfPrefix(b.items, stream);
    HandledFirst(b, inHand);
  }

  /** What has been handled is the beginning of what has been read. */
  lemma HandledFirst(b: Inbox, inHand: seq<Frame>)
    requires FramesOf(b.items) == b.handled + inHand + b.queue + b.rejected
    ensures b.handled <= FramesOf(b.items)
  {
  }

  lemma RunBounded(maxPending: nat, trace: seq<Move>, ch: Broadcast, stream: seq<Item>)
    requires Follow(Spawn(maxPending, ch), trace, ch).Some?
    requires Consumes(Follow(Spawn(maxPending, ch), trace, ch).value.inbox.items, stream)
    ensures var b := Follow(Spawn(maxPending, ch), trace, ch).value.inbox;
            |b.items| <= |stream| + 1 && b.handled <= FramesOf(stream)
  {
    SpawnInv(maxPending, ch);
    FollowInv(Spawn(maxPending, ch), trace, ch);
    ReadsBounded(Follow(Spawn(maxPending, ch), trace, ch).value, ChannelAfter(ch, trace), stream);
  }

  /** Once the select is over no turn reads, handles, sends or receives anything more. */
  lemma NothingAfterSelect(c: Conn, e: Event, ch: Broadcast)
    requires !HoldsReceiver(c) && Enabled(c, e, ch)
    ensures var next := Next(c, e, ch);
            !HoldsReceiver(next) && next == c.(phase := next.phase)
  {
  }
}
