# Braidpool node: peer connections and payout updates

This project models the two parts of the Braidpool node whose behaviour comes from many functions
working together, and proves properties of them over every run.

**Peer connections.** A node runs any number of connection tasks. They share one capacity-limited
registry of peer addresses and one broadcast channel, on which a heartbeat task publishes.

- `Protocol.dfy`: the messages and the reply rule of each. A frame is the encoding of a message or
  bytes that parse as none.
- `ConnectionManager.dfy`: the registry object, and what any history of calls leaves in it.
- `Connection.dfy`: one task as a state machine. A step is one turn between two await points. A sink's
  `send` is two turns, because it first accepts the frame and then flushes it; a frame counts as sent
  when it is accepted, which is also what closing the writer flushes.
- `Schedules.dfy`: what the task makes of a schedule, that is of the order in which its futures are polled
  and of what other tasks do meanwhile.
- `ConnectionTask.dfy`: the same task as the code runs it, an object whose loops update its queue,
  writer and receivers in place. Every turn is proved to be the state machine's step, and every run
  of the task a run of the machine, whatever other tasks publish and register meanwhile.
- `Heartbeat.dfy`, `HeartbeatTask.dfy`: the timer as a state machine, and the task as an object.
- `Node.dfy`, `NodeProperties.dfy`, `Heartbeats.dfy`, `Deafness.dfy`: all the tasks of a node together, under
  any schedule; when exactly the heartbeat is published, and when exactly a connected task hears it.
- `Link.dfy`, `Handshake.dfy`, `Quiescence.dfy`, `Completion.dfy`, `Flooding.dfy`: two tasks joined by FIFO
  streams: what they say to each other, that they stop, that the handshake can always be completed, and
  how much room in the queues makes sure that it is.
- `World.dfy`: whole networks of nodes, with their tasks wired in pairs. What two wired tasks do in a
  network is proved to be a run of their link, so the results about links hold there.

**Payout updates.** Each update spends output 0 of a coinbase and output 0 of the previous update,
pays one output, and is signed input by input.

- `Bitcoin.dfy`: transactions, with hashes as free terms. A txid is the term of the transaction
  without witnesses (BIP 141, section "Transaction ID"); a digest is the term of the fields it commits
  to (BIP 341, section "Common signature message").
- `TransactionBuilder.dfy`, `Signature.dfy`, `PayoutUpdate.dfy`: the builder, the signer and one update,
  as objects updated in place, with the functions they are proved against.
- `PayoutChain.dfy`: chains of any length, and their effect on a ledger of unspent outputs.

`Wrappers.dfy` and `Sequences.dfy` hold the option and result types and facts about totals and merges.

## Where the code does not do what is said of it

- A handled message does not put the heartbeat off. The call at node/connection/src/lib.rs:213 builds a
  future that is never awaited, so only the accept loop (line 126) resets the timer: over any run, whatever
  is handled, resets never outnumber the accept loop's notifications
  (`NodeProperties.ResetsComeFromAccepts`).
- A heartbeat can end its own task. While a peer's task is in cleanup its address is still registered but
  its broadcast receiver is gone, so the publish may find no receiver and panic. It happens exactly when
  every task is past its select (`NodeProperties.HeartbeatSurvivesIff`); one peer suffices
  (`NodeProperties.HeartbeatCanQuit`).
- Capacity does not bound live connections when addresses repeat. An insert over a present address leaves
  one entry for two tasks. Over any run, live tasks and entries stay matched exactly as long as no task
  registers an address already present (`NodeProperties.AlwaysMatchedIff`). With capacity two or more any
  number of live tasks can stand behind one entry (`NodeProperties.LiveUnbounded`); with one or none the
  capacity does bound them (`NodeProperties.LiveWithinSmallCapacity`).
- A connected task can be deaf to broadcasts: after a receive that reports lag (or the closing of the
  channel) it forwards none until its peer sends something. Over any run a task that still holds its
  receiver is deaf exactly when the last of its receives was such a one (`Deafness.OffIff`,
  `Deafness.OffSinceSpawnIff`). With any window a task that is not scheduled for long enough gets there on a
  healthy connection (`NodeProperties.LagHappens`); one that stays within the window never does while the
  channel is open (`Deafness.KeepingUpHears`).
- A peer can be closed for flooding (node/connection/src/lib.rs:173-176) without flooding. Between honest
  ends a queue with room for two frames and every broadcast at the peer's node never overflows
  (`Flooding.NeverFlooded`); with one less it can (`Flooding.TooLittleRoom`).
- A signature is checked against the key that made it and not against the output it is to spend, and
  signing again adds to the witness. An input can be spent by the key of its output exactly when one call
  with an accepted tweak was made on it, with that key (`PayoutUpdates.KeyPathSpendsIff`): the same call
  twice spoils it, and so does any other key (`PayoutUpdates.SigningTwiceSpoils`,
  `PayoutUpdates.OtherKeySpoils`). A ledger that checks signatures takes a whole chain exactly when every
  input of every epoch was signed in that way (`PayoutChains.LedgerAcceptsSignedChainIff`).

## Model

| member | source | states |
|---|---|---|
| Protocol.ReactTable | node/protocol/src/lib.rs:56-63 | Exactly `helo` and `ping`, as the literal messages of version 0.1.0, are answered, by `oleh` and `pong`; exactly the unparseable frames and the other handshakes close the connection; heartbeats, `oleh` and `pong` get no reply |
| Protocol.ReplyLosesWeight | node/protocol/src/handshake.rs:36-50 | A reply weighs less than what it answers and is itself never answered |
| Protocol.RepliesCounted | node/protocol/src/ping.rs:35-44 | Over any frames: one reply per `helo` or `ping`, as many `oleh` as `helo`, no `helo` among the replies, none of them answered in turn |
| ConnectionManagement.RegisteredIff | node/connection/src/connection_manager.rs:51-78 | After any history of calls an address is present with some metadata if and only if an accepted insert put it there and no later accepted insert or removal of that address followed |
| ConnectionManagement.SizeBalance | node/connection/src/connection_manager.rs:51-84 | The size is the inserts that returned `Ok(None)` less the removals that returned `Some`, and never above capacity |
| ConnectionManagement.ConnectionManager.Insert | node/connection/src/connection_manager.rs:51-66 | Refused exactly at capacity, whatever the address, changing nothing; otherwise returns the displaced metadata and maps the address |
| ConnectionManagement.ConnectionManager.Remove | node/connection/src/connection_manager.rs:69-72 | Returns what was there and removes that address only |
| ConnectionManagement.ConnectionManager.Get | node/connection/src/connection_manager.rs:75-78 | Finds an entry exactly when present, and it is the one the call history decides |
| ConnectionManagement.ConnectionManager.NumConnections | node/connection/src/connection_manager.rs:81-84 | The size, within capacity and equal to fresh inserts less effective removals of the whole history |
| Connection.NextInv | node/connection/src/lib.rs:158-300 | Every turn of a task keeps its invariant: frames read are handled, in hand, queued or rejected, in order; output is the greeting and a merge of replies and broadcasts; the sender lives exactly until the select ends; broadcasts passed over were overwritten |
| Connection.ReadsBounded | node/connection/src/lib.rs:162-191 | On a stream of n items at most n + 1 reads, the handled frames are a prefix of the stream's, and after the last read the select is over |
| Connection.NothingAfterSelect | node/connection/src/lib.rs:287-299 | Once the select is over no turn reads, handles, receives or sends anything more |
| Connection.LifeCycle | node/connection/src/lib.rs:259-300 | In every run each stage of a task's life is passed once and in order: let in, select entered, writer closed, registry left; or refused, and nothing more |
| Connection.ExhaustedSelectPanics | node/connection/src/lib.rs:207-222 | A select whose last enabled branch fails to match panics, as the macro without an else branch does |
| ConnectionTasks.ConnectionTask.constructor | node/connection/src/lib.rs:52-77 | A new task starts at the current end of the broadcast log with an empty queue, in the machine's initial state |
| ConnectionTasks.ConnectionTask.Register | node/connection/src/lib.rs:272-284 | Refused exactly at capacity; the shared registry changes as the insert says and the task takes the machine's matching turn |
| ConnectionTasks.ConnectionTask.Greet | node/connection/src/lib.rs:285-286 | The peer is sent `helo` exactly if the sink takes it, and nothing else; either way the task goes on to its select |
| ConnectionTasks.ConnectionTask.ReadTurn | node/connection/src/lib.rs:162-191 | One pass of the read loop is the machine's read turn |
| ConnectionTasks.ConnectionTask.QueueTurn | node/connection/src/lib.rs:208-215 | The queue branch of the handler's select is the machine's turn, pattern mismatch included |
| ConnectionTasks.ConnectionTask.HandleReceived | node/connection/src/lib.rs:225-253 | Parse, react, and either fail, finish or start sending the reply |
| ConnectionTasks.ConnectionTask.BroadcastTurn | node/connection/src/lib.rs:216-220 | The broadcast branch is the machine's turn: forward, or on lag or closure disable the branch |
| ConnectionTasks.ConnectionTask.Poll | node/connection/src/lib.rs:287-296 | The chosen future takes its turn exactly when it can move: the reader always; the queue branch if enabled with a frame queued or the queue closed; the broadcast branch if enabled with an entry unread or the channel closed; the sink, working or broken, while a frame is being sent |
| ConnectionTasks.ConnectionTask.Serve | node/connection/src/lib.rs:287-296 | Under any schedule, and whatever others publish and register between wake-ups, the two loops end in cleanup, never in a panic, in exactly the state the schedule determines, by a sequence of the machine's turns; the registry and the channel see only what the others did |
| ConnectionTasks.ConnectionTask.CleanUp | node/connection/src/lib.rs:297-299 | The writer is closed and then exactly this address is removed, as the task's last act on the registry |
| ConnectionTasks.ConnectionTask.Start | node/connection/src/lib.rs:259-300 | The whole task terminates whatever others do meanwhile: refused with nothing changed, or done, its own part in the registry's history being one insert first and one removal last, with its address absent; its output starts with `helo` if the sink takes that; polled in turn it handles every frame up to the first it cannot and sends all replies; after at most n + 1 reads of an n-item stream, in the state its schedule and its trace lead to |
| Schedules.EveryFrameHandled | node/connection/src/lib.rs:207-253 | Polled in turn, with any interference, a task handles exactly the frames of its stream up to the first that cannot be handled or the first failed read, and its output is its greeting and then their replies in order |
| Schedules.EveryBroadcastForwarded | node/connection/src/lib.rs:216-220 | With channel and sink polled in turn a task forwards everything published since it subscribed, in order, if that is no more than the channel retains |
| Schedules.OutcomeGreets | node/connection/src/lib.rs:285-286 | Under any schedule a task whose opening send is taken begins its output with `helo` |
| HeartbeatTimer.SendsBounded | node/connection/src/lib.rs:317-334 | At most (now - start) / period + 1 heartbeats are ever sent |
| HeartbeatTimer.SendsExactly | node/connection/src/lib.rs:317-334 | From the start, with no reset, somebody connected at every tick and every publish heard, a timer with nothing due has sent exactly (now - start) / period + 1 heartbeats |
| HeartbeatTimer.SendsAfterReset | node/connection/src/lib.rs:329-331 | After a processed reset at most one heartbeat per period elapsed since, hence none within one period |
| HeartbeatTimer.LateTicksBurst | node/connection/src/lib.rs:321-329 | A timer k periods late makes k + 1 passes of its loop without any time passing, publishing in each that finds somebody connected, and only then waits for the next deadline |
| HeartbeatTimer.ResetsNeedNotifications | node/connection/src/lib.rs:329-331 | Resets never outnumber notifications, of which at most one is stored |
| HeartbeatTasks.HeartbeatTask.Run | node/connection/src/lib.rs:321-334 | Under any sequence of wake-ups, and whatever others register meanwhile, the loop is the timer's loop under those wake-ups, with the registry as it then is deciding each tick; the channel gets its fixed message once per send, at most (now - start) / period + 1 times and exactly so often if undisturbed; the registry sees only others' calls; it stops early only by a failed publish |
| HeartbeatTasks.HeartbeatTask.Turn | node/connection/src/lib.rs:322-333 | One pass is the timer's pass: the time asleep goes by, then a stored notification resets or a due tick fires, and each send is one message on the channel |
| HeartbeatTasks.PassDoes | node/connection/src/lib.rs:322-333 | What a pass does in every case: a reset takes the permit and puts the deadline one period off; a due tick moves it by one period and publishes exactly if somebody is connected, ending the task if nobody hears; otherwise only time passes |
| HeartbeatTasks.LateLoopBurst | node/connection/src/lib.rs:321-329 | A loop woken up k periods late goes round k + 1 times at once, by exactly the passes of the timer's burst |
| Node.ReachableInv | node/connection/src/lib.rs:113-300 | Every state a run of a node leads to satisfies the task, registry and heartbeat invariants |
| NodeProperties.ConnectionTraffic | node/connection/src/lib.rs:158-296 | In every run: output is `helo` then an order-preserving merge of replies and broadcasts; the replies are those the handled frames call for; frames read are handled, then at most one in hand, then queued, then at most one rejected; the queue is bounded |
| NodeProperties.SelectNeverExhausted | node/connection/src/lib.rs:207-222 | While a task is in its select the sender lives and the queue is open, so the select never runs out of branches and no task panics there; afterwards both are gone |
| NodeProperties.ClosesOnlyForCause | node/connection/src/lib.rs:158-253 | A select ends only on a stream failure or end, a full queue, a frame that cannot be handled, or a send under way |
| NodeProperties.BroadcastsDelivered | node/connection/src/lib.rs:207-221 | Delivered broadcasts are log entries from the subscription on, in order, without repetition; anything passed over was overwritten; consecutive unless lag was reported |
| NodeProperties.NothingFromBefore | node/connection/src/lib.rs:130-138 | A task forwards nothing published before it was spawned |
| NodeProperties.DeafUntilPeerSpeaks | node/connection/src/lib.rs:207-221 | With the broadcast branch disabled, a task forwards nothing over any run in which it takes no frame from its peer |
| NodeProperties.PeerSpeaks | node/connection/src/lib.rs:207-215 | A peer frame restores the branch: at once if it needs no reply, once the reply is sent if it does; only a frame that cannot be handled does not |
| NodeProperties.LagDeafens | node/connection/src/lib.rs:216-216 | A lagged receive leaves the task in its select with the broadcast branch disabled and the queue branch on, having forwarded nothing |
| NodeProperties.LagHappens | node/connection/src/lib.rs:216-216 | Whatever the window, a run from the start leads to a task that has greeted, is connected, has lagged and is deaf, having forwarded nothing |
| Deafness.OffIff | node/connection/src/lib.rs:207-221 | Over any run, a task that still holds its receiver is in its select with the broadcast branch off if and only if the last of its receives was a broadcast receive that found its entry overwritten or nothing left on a closed channel, or it received nothing and the branch was off before |
| Deafness.OffSinceSpawnIff | node/connection/src/lib.rs:207-221 | From its spawning on a task that holds its receiver is deaf if and only if its last receive was of that kind |
| Deafness.LaggedIff | node/connection/src/lib.rs:216-216 | Over any run a task has been told of lag if and only if it was before or took a broadcast receive when its entry had been overwritten |
| Deafness.KeepingUpHears | node/connection/src/lib.rs:207-221 | While the channel is open, a task that stays within the window and starts out hearing is never deaf as long as it holds its receiver |
| Deafness.ListeningForwards | node/connection/src/lib.rs:216-220 | A task that is not deaf can forward the next unread entry of the log that is still in the window, by three turns of its own, and then listens again |
| Deafness.ListeningCatchesUp | node/connection/src/lib.rs:216-220 | Likewise the whole unread part of the log, in order, if none of it is overwritten |
| NodeProperties.RegisteredAreLive | node/connection/src/connection_manager.rs:51-72 | In every run registered addresses belong to live connections and number at most the capacity |
| NodeProperties.MatchedStep | node/connection/src/lib.rs:273-299 | Live connections and entries stay one to one exactly when no event registers an address already present; such an event leaves one live connection more than entries |
| NodeProperties.AlwaysMatchedIff | node/connection/src/lib.rs:273-299 | Over any run, entries and live connections are one to one in every state exactly when no event of the run registers an address already present |
| NodeProperties.BootMatched | node/run/src/main.rs:38-50 | A freshly started node meets the conditions the capacity results start from |
| NodeProperties.LiveWithinCapacity | node/connection/src/lib.rs:273-299 | In runs without such events the registered addresses are exactly those of the live connections, which never exceed the capacity |
| NodeProperties.LiveWithinSmallCapacity | node/connection/src/connection_manager.rs:56-60 | With capacity at most one, live connections never exceed it in any run |
| NodeProperties.LiveUnbounded | node/connection/src/connection_manager.rs:56-60 | With capacity two or more, runs exist with any number of live tasks behind one entry |
| NodeProperties.AbsentAfterUnregister | node/connection/src/lib.rs:298-299 | A finished task's address stays absent until a task of the same address registers |
| NodeProperties.HeartbeatsBounded | node/connection/src/lib.rs:317-334 | In every run the broadcast log holds only heartbeats, at most one per elapsed period plus one, and no connection forwards more than that |
| NodeProperties.ResetQuietens | node/connection/src/lib.rs:126-126 | In every run, after a reset from the accept loop at most one heartbeat per elapsed period, none within one |
| NodeProperties.ResetsComeFromAccepts | node/connection/src/lib.rs:126-126 | Over any run the processed resets never exceed the accept loop's notifications and the one stored before, so without these no handled message causes one |
| NodeProperties.HeartbeatSurvivesIff | node/connection/src/lib.rs:324-328 | A publish ends the heartbeat task exactly when no task is before or in its select; then every registered address belongs to a task in cleanup |
| NodeProperties.HeartbeatCanQuit | node/connection/src/lib.rs:325-327 | On every configuration that admits a peer some run ends the heartbeat task with the peer still registered |
| Heartbeats.AboutToPublishIff | node/connection/src/lib.rs:324-326 | Over any run the heartbeat task is about to publish exactly when its last tick fell while the registry was not empty and it has not published since |
| Heartbeats.PublishNeedsPeer | node/connection/src/lib.rs:325-326 | In every run each publish, heard or not, was preceded by a tick with somebody registered, and by no other tick or publish after that |
| Heartbeats.SilentAlone | node/connection/src/lib.rs:325-326 | From the start, in a run in which nobody is registered, the registry and the log stay empty and the heartbeat task never quits |
| Heartbeats.DueTickAlone | node/connection/src/lib.rs:324-329 | A due tick with nobody registered is taken, moves the deadline by one period, and changes nothing else |
| Heartbeats.DueTickPublishes | node/connection/src/lib.rs:324-329 | A due tick with somebody registered is taken and leads to a publish: one heartbeat more on the log if it is heard, the end of the task if not |
| Heartbeats.Admission | node/connection/src/lib.rs:272-284 | A task that asks is registered, with the time, exactly when the registry has room, and is otherwise turned away with the registry as it was |
| Heartbeats.DialFails | node/connection/src/lib.rs:52-77 | A failed dial ends its task before it asks to be registered and changes nothing else |
| Handshake.HandshakeOrderly | node/protocol/src/handshake.rs:29-50 | Between two honest ends each direction starts with `helo` whenever its opening send was accepted, carries no second one and exactly one `oleh` for each opposite `helo` handled or in hand with its reply out, hence at most one; `handle_received` never fails |
| Handshake.FreshPolite | node/connection/src/lib.rs:52-77 | Two freshly spawned ends, of any queue bounds and windows, meet the conditions the handshake results start from |
| Handshake.HandshakeCompletes | node/connection/src/lib.rs:285-296 | When both ends have handled everything, each has handled exactly one `helo` and one `oleh` |
| Completion.HandshakeCanComplete | node/connection/src/lib.rs:259-300 | From any run of two honest ends with room in their queues in which nothing has failed, turns that are no failures, at most as many as the potential, lead to both ends settled and having handled everything, exactly one `helo` and one `oleh` among it |
| Completion.FreshHealthy | node/connection/src/lib.rs:52-77 | Two freshly spawned ends with queue bounds of at least one meet the conditions that result starts from |
| Flooding.NeverFlooded | node/connection/src/lib.rs:162-185 | Between honest ends a queue with room for two frames and every broadcast at the other node never overflows |
| Flooding.SmoothRunUnbroken | node/connection/src/lib.rs:158-300 | With so much room, a run in which no send fails, no stream ends and nobody is refused never closes an end |
| Flooding.EveryRunCompletes | node/connection/src/lib.rs:158-300 | With so much room, every such run that goes on until neither end can act, in whatever order, has completed the handshake and handled everything |
| Flooding.TooLittleRoom | node/connection/src/lib.rs:162-185 | With one frame less of room, for any number of heartbeats, some run of two honest ends without a failure overflows the queue and closes the connection |
| Quiescence.HandledBounded | node/connection/src/lib.rs:225-253 | Frames handled on a link are bounded by the weight injected (two for `helo` and `ping`, one otherwise), with equality once all is handled |
| Quiescence.RepliesMatchQuestions | node/connection/src/lib.rs:236-247 | Replies sent equal the `helo` and `ping` frames handled, plus at most one for the frame in hand |
| Quiescence.PotentialStep | node/connection/src/lib.rs:158-300 | Every turn on a link strictly lowers its potential; a broadcast raises it by at most twelve |
| Quiescence.TurnsBounded | node/connection/src/lib.rs:158-300 | In every run the turns taken and still owed are at most those owed at the start plus twelve per broadcast |
| Quiescence.FreshLinkDrains | node/connection/src/lib.rs:259-300 | A fresh link takes at most thirty turns plus twelve per broadcast, whatever the schedule |
| Quiescence.UnsettledCanAct | node/connection/src/lib.rs:207-222 | An end that has not closed and has something left to do always has a turn to take other than a failed send, a refusal or the end of the stream (the turn itself may find reason to close) |
| Quiescence.SettledIsCaughtUp | node/connection/src/lib.rs:225-253 | Two settled ends have handled everything sent, and the bound on handled frames is met exactly |
| Worlds.NodeRuns | node/run/src/main.rs:38-50 | What a node does within a network of any size is a run of that node, so the results about nodes hold there |
| Worlds.LinkRuns | node/connection/src/lib.rs:52-77 | What two wired tasks do within a network is a run of their link, each node's shared log supplying the broadcasts, all of them heartbeats |
| Worlds.NetworkHandshakes | node/connection/src/lib.rs:285-296 | From the start of any network, over any run, between any two wired tasks both directions are orderly and in order, and once each has greeted and handled everything each has handled exactly one `helo` and one `oleh` |
| Worlds.NetworkNeverFloods | node/connection/src/lib.rs:162-185 | In every run of a network a wired task with room for two frames and its peer's node's heartbeats never has its queue overflow |
| Worlds.PairTurnsBounded | node/connection/src/lib.rs:158-300 | Over any run of a network the turns two wired tasks take and still owe are at most those owed before plus twelve per heartbeat at either node |
| Worlds.NetworkTurnsBounded | node/connection/src/lib.rs:259-334 | From the start of a network two wired tasks take at most thirty turns plus twelve for each heartbeat period elapsed at either node and one more each, however it is scheduled and whatever breaks |
| Worlds.NetworkQuiesces | node/connection/src/lib.rs:158-300 | The same summed over any list of links of a network whose nodes share registries and logs among their tasks |
| Worlds.NetworkHandshakeCanComplete | node/connection/src/lib.rs:259-300 | Wherever a network has got to, two registered tasks that have not closed or failed to greet can complete their handshake by turns of their own, none of them a failure and no more than their potential, and are then both settled and still open |
| Bitcoin.WitnessFree | node/uhpo/src/crypto/signature.rs:124-142 | Neither the txid nor any digest depends on a witness |
| Bitcoin.TxidCommits | node/uhpo/src/payout_update.rs:39-44 | Two transactions have the same txid exactly when they agree on version, lock time, outputs, number of inputs and each input's outpoint, script and sequence |
| Bitcoin.DigestCommits | node/uhpo/src/crypto/signature.rs:124-133 | Two digests are the same exactly when type, index, outputs spent, version, lock time, outputs and each input's outpoint and sequence agree |
| TransactionBuilding.TransactionBuilder.AddInput | node/uhpo/src/transaction/builder.rs:35-43 | Appends one input naming the outpoint, with empty script and witness and maximal sequence; outputs unchanged |
| TransactionBuilding.TransactionBuilder.AddOutput | node/uhpo/src/transaction/builder.rs:53-59 | Appends one output; inputs unchanged |
| Signing.SigningKeepsValid | node/uhpo/src/crypto/signature.rs:114-144 | A signing request keeps the txid, leaves every earlier element in place and valid, and adds on success exactly the signature it made and 0x01, 65 bytes valid under its own key |
| Signing.SigningOnCurve | node/uhpo/src/crypto/signature.rs:109-144 | In terms of the curve alone: the key pair is the tweaked one if there is a tweak; a rejected tweak, a wrong prevout count, a rejected verification and an index beyond the inputs have their own outcomes in that order and change nothing; otherwise that pair's signature and 0x01 are appended to that input's witness |
| Signing.AddSignature | node/uhpo/src/crypto/signature.rs:97-145 | Fails in the code's order (tweak, prevout count, verification), then without effect; otherwise appends the signature of the pair, tweaked if asked, and 0x01 to that input's witness and changes nothing else |
| PayoutUpdates.NewSucceedsIff | node/uhpo/src/payout_update.rs:30-65 | `new` returns exactly when both transactions have an output, the sum does not overflow and the fee does not exceed it; the update then has version 2, lock time 0, inputs naming output 0 of each, unsigned, with maximal sequence, and a single output that plus the fee is the sum of the inputs |
| PayoutUpdates.NewValid | node/uhpo/src/payout_update.rs:36-64 | The recorded outputs are exactly those the inputs name, and the two lengths agree |
| PayoutUpdates.SigningHistory | node/uhpo/src/payout_update.rs:76-136 | Over any signing history txid, output and prevouts are unchanged, and each witness is exactly the list of the signatures its successful calls made, each of 65 bytes ending in 0x01 and valid against the transaction as it stands |
| PayoutUpdates.WitnessesRetained | node/uhpo/src/crypto/signature.rs:139-142 | Whatever is signed later, each witness only grows at its end |
| PayoutUpdates.SigningOutcomes | node/uhpo/src/payout_update.rs:76-136 | No history leads to a prevout or index error; signing the previous-update input of a first update always fails; a call succeeds exactly when the tweak and the verification do; a failed call changes nothing |
| PayoutUpdates.KeyPathSpendsIff | node/uhpo/src/crypto/signature.rs:129-142 | On a sound curve an input is a key-path spend of the output it names exactly when one call with an accepted tweak was made on it, with that output's key |
| PayoutUpdates.SigningTwiceSpoils | node/uhpo/src/crypto/signature.rs:139-142 | One call with the output's key makes an input a key-path spend; the same call again succeeds, and it is none any more |
| PayoutUpdates.OtherKeySpoils | node/uhpo/src/crypto/signature.rs:129-142 | A call with any other key succeeds, and leaves the input no key-path spend |
| PayoutUpdates.TweakedKeySpends | node/uhpo/src/crypto/signature.rs:114-123 | An output that pays to a tweaked key is spendable after one call with that tweak, and after one without it only if both pairs have the same public key |
| PayoutUpdates.CallSignsItsInput | node/uhpo/src/payout_update.rs:76-136 | The coinbase call touches the first input's witness alone and the other the second's; a successful one adds one element |
| PayoutUpdates.PayoutUpdate.New | node/uhpo/src/payout_update.rs:30-65 | Builds the update the specification gives, or panics for the same reason |
| PayoutUpdates.PayoutUpdate.AddCoinbaseSig | node/uhpo/src/payout_update.rs:76-100 | Signs input 0 over all prevouts, adding one element there and changing no other input, and keeps the update valid |
| PayoutUpdates.PayoutUpdate.AddPrevUpdateSig | node/uhpo/src/payout_update.rs:111-136 | Signs input 1, adding one element there and changing no other input, or fails without effect on a first update |
| PayoutChains.ValueConserved | node/uhpo/src/payout_update.rs:36-58 | For a chain of any length the latest output plus all fees equals the coinbase outputs consumed, with one output per update |
| PayoutChains.ChainSucceedsIff | node/uhpo/src/payout_update.rs:51-58 | A chain is built without a panic exactly when every epoch is affordable from the coinbases and fees so far |
| PayoutChains.SupplyNeverOverflows | node/uhpo/src/payout_update.rs:51-58 | Within 21,000,000 coins nothing overflows, and a chain is built exactly when the fees never exceed the coinbases |
| PayoutChains.NoDoubleSpendIff | node/uhpo/src/payout_update.rs:38-48 | With genuine coinbases a chain spends no outpoint twice exactly when the coinbases are distinct |
| PayoutChains.SpentBySuccessorOnly | node/uhpo/src/payout_update.rs:43-48 | An update's output is spent by the second input of its successor and by nothing else; the latest is unspent |
| PayoutChains.LedgerAcceptsChain | node/uhpo/src/payout_update.rs:36-64 | A ledger that enforces existence, uniqueness and value accepts the whole chain in order, and ends with the consumed coinbase outputs gone and the latest update's output added |
| PayoutChains.ReplayRefused | node/uhpo/src/payout_update.rs:38-48 | Once the ledger has taken the first n updates it refuses each of them |
| PayoutChains.ChainSigned | node/uhpo/src/payout_update.rs:76-140 | Every witness of a chain is exactly the list of signatures its own epoch's calls made, all valid over the outputs the inputs really spend |
| PayoutChains.LedgerAcceptsSignaturesIff | node/uhpo/src/crypto/signature.rs:129-142 | When an update reaches a ledger that also checks key-path signatures, it is accepted exactly when in its epoch the coinbase input was signed once with the key of the coinbase's first output and the other once with the key of the previous epoch's address |
| PayoutChains.LedgerAcceptsSignedChainIff | node/uhpo/src/crypto/signature.rs:129-142 | A ledger that checks the signatures of every update as it comes accepts the first n of a chain exactly when in each of those epochs every input was signed once with the key of its owner |
| PayoutChains.SignedChainExpected | node/uhpo/src/payout_update.rs:36-64 | That ledger then holds what one without the check would |

## Left out

- TCP sockets, name lookup, binding and accepting: only a dial that fails before `start`, reads that fail or end, and sends that fail remain, as events.
- The flexbuffers encoding and the length-delimited codec: a frame is a whole message or unparseable bytes, and encoding never fails.
- tokio's scheduler, channels, notification and interval: small models of the bounded queue, the broadcast window, the one stored permit and the bursting interval stand in for them. The broadcast window is a parameter, and so is the queue's bound; that tokio refuses a bound of zero is not modelled, where such a queue is always full.
- Elliptic-curve arithmetic, randomness and hashing: keys, tweaks, signing and verification are parameters of any behaviour, and hashes are free terms. Where a result needs the curve to be sound it says so; the assumption is idealised, and can be met (Signing.SoundExists).
- Script-path spends, and signature types that leave out inputs or outputs: the code makes neither. The key a script pays to is a parameter.
- Eltoo rebinding, settlement and coinbase maturity: not implemented in the repository.
- The accept and dial loops: reduced to the events they cause, a spawned task, an abandoned one and a notification, which may come in any order and number.
- Configuration, command line, logging and error texts: no behaviour of interest.
- Signing.AddSignature: the prevout count is the only sighash failure modelled; how the library treats an index beyond the inputs is not part of this model, and here such a call ends in the index panic of the last line.
- NodeProperties.TimerIgnoresTraffic: no step stands for the future built at node/connection/src/lib.rs:213, which is dropped unpolled.
- Completion.HandshakeCanComplete: that the continuation is taken is up to the scheduler, whose fairness is not modelled.
- PayoutUpdates.NewSucceedsIff: amounts are unbounded naturals with 64-bit overflow written out in the two operators; that a coinbase's own value fits is not assumed.
