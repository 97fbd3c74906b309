/** The messages peers exchange and the reply rule of each (node/protocol/src). */
module Protocol {
  import opened Wrappers
  import opened Sequences

  datatype SocketAddr = SocketAddr(ip: nat, port: nat)

  const VERSION := "0.1.0"

  datatype PingMessage = PingMessage(message: string) {
    static function Start(): Message {
      Ping(PingMessage("ping"))
    }

    function ResponseForReceived(): Result<Option<Message>, string> {
      if message == "ping" then Ok(Some(Ping(PingMessage("pong")))) else Ok(None)
    }
  }

  datatype HandshakeMessage = HandshakeMessage(message: string, version: string) {
    static function Start(): Message {
      Handshake(HandshakeMessage("helo", VERSION))
    }

    function ResponseForReceived(): Result<Option<Message>, string> {
      if message == "helo" && version == VERSION then
        Ok(Some(Handshake(HandshakeMessage("oleh", VERSION))))
      else if message == "oleh" && version == VERSION then
        Ok(None)
      else
        Err("Bad message")
    }
  }

  /** `time` is the clock reading taken when the message is made. */
  datatype HeartbeatMessage = HeartbeatMessage(from: SocketAddr, time: int) {
    static function Start(addr: SocketAddr, now: int): Message {
      Heartbeat(HeartbeatMessage(addr, now))
    }

    function ResponseForReceived(): Result<Option<Message>, string> {
      Ok(None)
    }
  }

  datatype Message =
    | Ping(ping: PingMessage)
    | Handshake(handshake: HandshakeMessage)
    | Heartbeat(heartbeat: HeartbeatMessage)
  {
    function ResponseForReceived(): Result<Option<Message>, string> {
      match this
      case Ping(m) => m.ResponseForReceived()
      case Handshake(m) => m.ResponseForReceived()
      case Heartbeat(m) => m.ResponseForReceived()
    }
  }

  /** A length-delimited frame: the encoding of a message, or bytes no message encodes to. */
  datatype Frame = Encoded(message: Message) | Unparseable(bytes: seq<nat>)

  const HELO: Frame := Encoded(HandshakeMessage.Start())
  const OLEH: Frame := Encoded(Handshake(HandshakeMessage("oleh", VERSION)))
  const PING: Frame := Encoded(PingMessage.Start())
  const PONG: Frame := Encoded(Ping(PingMessage("pong")))

  /** What `handle_received` does with a frame before it awaits anything. */
  datatype Reaction = Close | Silent | Answer(reply: Frame)

  function React(f: Frame): Reaction {
    match f
    case Unparseable(_) => Close
    case Encoded(m) =>
      match m.ResponseForReceived()
      case Err(_) => Close
      case Ok(None) => Silent
      case Ok(Some(r)) => Answer(Encoded(r))
  }

  predicate IsHeartbeat(f: Frame) {
    f.Encoded? && f.message.Heartbeat?
  }

  lemma WordsDiffer()
    ensures "helo" != "oleh" && "ping" != "pong"
    ensures HELO != OLEH && PING != PONG && HELO != PONG && OLEH != PONG
  {
    assert "helo"[0] != "oleh"[0];
    assert "ping"[1] != "pong"[1];
  }

  /** The whole reply table: exactly two frames are answered, and the connection closes on
      exactly the unparseable frames and the handshakes that are neither `helo` nor `oleh`
      of the current version. */
  lemma ReactTable(f: Frame)
    ensures HELO == Encoded(Handshake(HandshakeMessage("helo", "0.1.0")))
    ensures OLEH == Encoded(Handshake(HandshakeMessage("oleh", "0.1.0")))
    ensures PING == Encoded(Ping(PingMessage("ping"))) && PONG == Encoded(Ping(PingMessage("pong")))
    ensures React(f).Answer? <==> f == HELO || f == PING
    ensures React(HELO) == Answer(OLEH) && React(PING) == Answer(PONG)
    ensures React(f) == Close <==>
            f.Unparseable? || (f.message.Handshake? && f != HELO && f != OLEH)
    ensures React(OLEH) == React(PONG) == Silent
    ensures IsHeartbeat(f) ==> React(f) == Silent
  {
    WordsDiffer();
  }

  /** The number of messages a frame can still cause to be handled: itself, and its reply. */
  function Weight(f: Frame): (w: nat)
    ensures w == 2 <==> f == HELO || f == PING
    ensures w == 1 || w == 2
  {
    ReactTable(f);
    if React(f).Answer? then 2 else 1
  }

  /** Answering strictly loses weight, and no reply is itself answered: conversations stop. */
  lemma ReplyLosesWeight(f: Frame)
    requires React(f).Answer?
    ensures Weight(React(f).reply) < Weight(f)
    ensures React(React(f).reply) == Silent
  {
    ReactTable(f);
    ReactTable(React(f).reply);
  }

  /** The replies the frames of `s` call for, in order. */
  function Replies(s: seq<Frame>): seq<Frame> {
    if s == [] then []
    else
      var r := React(s[|s| - 1]);
      Replies(s[..|s| - 1]) + (if r.Answer? then [r.reply] else [])
  }

  lemma RepliesAppend(s: seq<Frame>, f: Frame)
    ensures Replies(s + [f]) == Replies(s) + (if React(f).Answer? then [React(f).reply] else [])
  {
    assert (s + [f])[..|s|] == s;
  }

  function Answered(f: Frame): nat { if React(f).Answer? then 1 else 0 }

  function CountHelo(f: Frame): nat { if f == HELO then 1 else 0 }

  function CountOleh(f: Frame): nat { if f == OLEH then 1 else 0 }

  /** Weight counts a frame once for itself and once for the answer it will get. */
  lemma {:induction false} TotalWeight(s: seq<Frame>)
    ensures Total(s, Weight) == |s| + Total(s, Answered)
  {
    if s != [] {
      TotalWeight(s[..|s| - 1]);
    }
  }

  /** There is one reply per answered frame, no reply is answered in turn, no reply is a
      `helo`, and there are as many `oleh` replies as `helo` frames. */
  lemma {:induction false} RepliesCounted(s: seq<Frame>)
    ensures |Replies(s)| == Total(s, Answered)
    ensures Total(Replies(s), Answered) == 0
    ensures Total(Replies(s), CountHelo) == 0
    ensures Total(Replies(s), CountOleh) == Total(s, CountHelo)
    ensures forall r :: r in Replies(s) ==> r == OLEH || r == PONG
  {
    if s != [] {
      var s0, f := s[..|s| - 1], s[|s| - 1];
      RepliesCounted(s0);
      ReactTable(f);
      WordsDiffer();
      if React(f).Answer? {
        var r := React(f).reply;
        ReactTable(r);
        TotalAppend(Replies(s0), r, Answered);
        TotalAppend(Replies(s0), r, CountHelo);
        TotalAppend(Replies(s0), r, CountOleh);
      } else {
        assert Replies(s) == Replies(s0);
      }
    }
  }
}
