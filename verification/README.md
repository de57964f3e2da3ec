# Verified model of the stream hub and its adapters

This project models, in Dafny, the publish/subscribe hub of the repository and the parts of its
adapters where frames can be lost, repeated, reordered or misread, and proves what they keep.

Two forms of the same code stand side by side. Code that updates fields or buffers is a class or a
method with loops (`Hubs.Hub`, `Peers.Peer`, `TcpLink.Conn`, `SseAdapter.ResponseWriter`,
`RedisBridge.Bridge`, `Reconnecting.Client`), proved against functions on values. Code that runs
concurrently is a state machine whose steps are the locked sections, channel operations, callbacks
and network operations of the Go code, taken by any number of threads in any order; its theorems are
about every run.

| files | what they hold |
|---|---|
| `bytes.dfy` | byte strings and 32-bit big-endian words |
| `peer.dfy` | `Peer`: queue, close hook, closing once |
| `registry.dfy` | the hub's tables as a value, fan-out, counts, handler identity |
| `byteorder.dfy`, `hub.dfy` | sorting by identifier; the `Hub` class |
| `hubruns.dfy`, `hubinvariants.dfy`, `hubsafety.dfy` | the hub under concurrency and what every run keeps |
| `hubexact.dfy`, `hubprogress.dfy` | what a run does, counted from its calls and its listeners; a running hub is never stuck |
| `hubschedules.dfy`, `hubremovals.dfy` | schedules of the hub: order, additions and removals, running again |
| `tcp.dfy`, `tcplink.dfy` | TCP frames; connections, read loops, the write pump |
| `eventstream.dfy`, `sse.dfy`, `sseclient.dfy` | a parser after section 9.2.6 of the WHATWG HTML Living Standard, event-stream output, and a client |
| `utf8.dfy` | the UTF-8 decoder of the WHATWG Encoding Standard |
| `zmq.dfy` | NUL-delimited messages |
| `rediskeys.dfy` | the names a bridge uses, against glob patterns |
| `rediscluster.dfy`, `redistraffic.dfy`, `redisbounds.dfy`, `redisrestarts.dfy` | hubs joined by bridges: the steps, what every run keeps, bounds and exact counts, overlapping starts and the end of a start |
| `redisbridge.dfy` | one bridge |
| `pipes.dfy` | hubs joined by `Pipe` |
| `backoff.dfy`, `reconnect.dfy`, `reconnectruns.dfy`, `reconnectrounds.dfy` | backoff, the reconnect loop, `Connect` against `Close`, and that the two agree |

## What was found

Properties one would expect that the code does not have, each with the exact condition under which
it holds, or a run that shows the failure:

- A zero-valued `Peer` closed before its first `AddPeer` or `SubscribePeer` gets an open queue there
  that nothing closes; `Send` fails for good after `Close` exactly when the peer had its queue
  (`Peers.SendFailsAfterCloseIff`).
- The TCP encoders are correct exactly when the frame with its headers fits in 32 bits; past that the
  lengths wrap, and the encoder panics or drops bytes (`TcpFrames.EncoderCorrectIff`). Frames over
  65535 bytes are encoded and sent, but end the link at the reader (`TcpLink.OversizeEndsTheLink`).
- A publish on the empty channel reaches a tcp peer's far end as a broadcast
  (`TcpLink.PublishArrivesAsPublishIff`).
- An SSE client gets back exactly the frames sent if and only if each is well-formed UTF-8 without a
  CR (`SseClient.StreamRoundTripIff`).
- `ChannelCount` double counts exactly when a channel has an empty peer entry beside handlers
  (`Registries.ChannelCountIff`); no reachable state of a hub has one (`HubSafety.TablesAgree`).
- The order of deliveries is lost once a queue overflows: a delivery keeps its place exactly when the
  queue has room for it (`HubSchedules.OrderIsKeptIff`, with a run in `HubSchedules.OverflowReorders`).
- A removal can overtake the addition before it: after `RemovePeer` the peer can stay registered
  exactly when an addition of it was still pending (`HubRemovals.RemoveLeavesRegisteredIff`, with a
  run in `HubRemovals.RemoveCanOvertakeAdd`).
- A hub that runs again does not get a new `done`: it stays closed from the end of the first cleanup
  on (`HubSchedules.DoneIffRunReturned`). While no Run stops, a running hub can give up a delivery it
  has accepted exactly when `done` is closed or an earlier Run is still cleaning up
  (`HubSchedules.RunningHubGivesUpIff`, with a run in `HubSchedules.RestartedHubDiscards`).
- A call sends up to one Redis message for each hook that is installed when it is processed, so at
  most one exactly when at most one is installed (`RedisTraffic.AtMostOneMessageIff`). A bridge that is
  started again as soon as it is no longer `running`, before the previous `Start` has returned, can
  send a publish twice (`RedisRestarts.OverlappingStartsDuplicate`).
- Of prefixes without classes and escapes, those with a `*` make a bridge receive some channel twice,
  and no others do (`RedisKeys.ReceivedOnceIff`). Two glob-free bridge prefixes interfere exactly
  when they are equal or one extends the other by `:channel` (`RedisKeys.GlobFreeInterfereIff`); for
  prefixes with `?` they interfere exactly when they fit on their overlap
  (`RedisKeys.PrefixesInterfereIff`).
- Forwarding through pipes ends for every publish exactly when the pipes form no cycle
  (`Pipes.TerminatesIffAcyclic`); a frame arrives once for every path, not once for every hub
  (`Pipes.OnePublishPerPath`), so at most once exactly where at most one path leads
  (`Pipes.AtMostOnceIff`).
- `Close` does not prevent a reconnecting client from connecting once more; it can exactly when a
  `Connect` had passed its check, was not cancelled before its dial was done, and had not yet stored
  its connection (`ReconnectRuns.ConnectsAfterCloseIff`).
- A second `Connect` can break the agreement of state and connection, exactly when the client is open
  and an earlier `Connect` will still make or end an attempt: it has not returned, is not about to
  give up, and is not cancelled between two attempts (`ReconnectRuns.SecondConnectIsSafeIff`, with a
  run in `ReconnectRuns.TwoConnectsAreIncoherent`).
- `readLoop` never returns success, so the end of a session counts as a failed attempt: with a limit
  of n, a client gives up after n + 1 failures at first, but after n once it has been connected
  (`Reconnecting.GivesUp`).

Where the documentation and the code differ the model follows the code: `docs/RFC.md` lines 97-98
let `SendToChannel` reach the subscribers of the channel, while the code also sends to those of `*`
and calls handlers; the same document describes one message per publish between bridges without the
conditions above; and the source peer that `PublishFromPeer` and `BroadcastFromPeer` pass along is
ignored (`go/hub.go` lines 702 and 846), so a sender gets its own frames.

## Model

| member | source | states |
|---|---|---|
| Peers.Peer.Send | go/stream.go:110-131 | accepts a copy exactly when the queue exists, is open and holds fewer than 256 frames; otherwise changes nothing |
| Peers.Peer.Receive | go/stream.go:172-177 | takes the oldest buffered frame, also from a closed queue |
| Peers.Peer.Close | go/stream.go:136-153 | closes the queue if there is one and calls the hook if one is set, each once; a second call changes nothing |
| Peers.Peer.SetCloseHook | go/stream.go:156-163 | replaces the hook and nothing else |
| Peers.Peer.EnsureSendQueue | go/hub.go:566-569 | makes a queue only where there is none |
| Peers.RunKeepsInv | go/stream.go:110-163 | over every interleaving of sends, drains and the steps of Close: accepted frames = drained ++ buffered, at most 256 buffered, queue and hook closed at most once |
| Peers.SendFailsAfterCloseIff | go/stream.go:136-153 | once Close has closed what it found, no Send ever succeeds iff the peer had its queue when Close read it |
| Peers.ClosedRejects | go/stream.go:110-131 | a closed queue stays closed and accepts nothing in any continuation |
| Peers.NewPeerClosesItsQueue | go/stream.go:84-92 | peers made by NewPeer always meet that condition |
| Peers.CloseCallsTheLastHook | go/stream.go:136-163 | over every run, once Close is done: the hook was called iff the last SetCloseHook before Close gave one, and the queue was closed iff one had been made by then |
| Peers.StepsOfOneUse | go/stream.go:110-153 | in every state the steps of Close end it, a Send with room adds the frame at the end of the queue and any other changes nothing, and a receive takes the first |
| Peers.LateHookIsNotCalled | go/stream.go:141-152 | once Close has read the hook, setting one changes nothing but the field: every later state is as if it had not been set, whether or not Close found a hook |
| Registries.SubscribePeerKeepsIndex | go/hub.go:252-281 | subscribing keeps hub.channels and the peers' own subscriptions mirrored, and no entry empty |
| Registries.UnsubscribePeerKeepsIndex | go/hub.go:303-318 | so does unsubscribing, which deletes an emptied channel |
| Registries.RemovePeerKeepsIndex | go/hub.go:674-699 | so does removing a peer, which afterwards is in no channel |
| Registries.SubscribeKeepsIndex | go/hub.go:207-219 | so does adding a handler; the empty channel never becomes a key |
| Registries.UnsubscribeKeepsIndex | go/hub.go:221-230 | so does an unsubscribe closure, which deletes an emptied handler entry |
| Registries.SubscribePeerIsExact | go/hub.go:252-281 | subscribing adds exactly the pair of that peer and that channel to both indices, iff the channel is `*` or is not empty and allowed; nothing else changes |
| Registries.UnsubscribePeerIsExact | go/hub.go:303-318 | unsubscribing takes exactly that pair away |
| Registries.AddPeerIsExact | go/hub.go:657-668 | adding registers exactly that peer and keeps every subscription |
| Registries.RemovePeerIsExact | go/hub.go:674-699 | removing unregisters exactly that peer and, if it was registered, takes away exactly its own subscriptions |
| Registries.RemoveClearsIff | go/hub.go:674-690 | removePeer leaves a peer without subscriptions iff it was registered or had none |
| Registries.SharedPeerKeepsMirrorIff | go/hub.go:261-270 | what another hub does to a shared peer's own table keeps this hub's mirror iff this hub's tables say the same already |
| Registries.FanOutIsRelational | go/hub.go:846-870 | the targets of a publish are exactly the peers whose own subscriptions hold the channel or `*`; the handlers are exactly the live ones of the channel, of `*`, and the publish handlers iff notifying |
| Registries.EarlyReturnIff | go/hub.go:168-181 | a publish returns early exactly when processing it in that state would reach no peer and no handler |
| Registries.ChannelCountIff | go/hub.go:449-478 | the two loops count every channel in use once iff no channel has an empty peer entry beside handlers |
| Registries.ActiveWhenNoEmptyEntry | go/hub.go:379-406 | without empty entries the two loops count exactly the channels with a peer or a handler, each with subscribers |
| Registries.SubscribeLookup | go/hub.go:214-219 | a new handler is found under its token and no other handler is affected |
| Registries.SubscribeKeepsHandlers | go/hub.go:214-219 | while fewer than 2^64 were granted, a new ID is unused in all three registries and the registries hold exactly the handlers not yet unsubscribed |
| Registries.UnsubscribeExact | go/hub.go:221-230 | a closure removes its own handler and no other, whatever became of its channel entry since |
| Registries.UnsubscribeKeepsHandlers | go/hub.go:431-435 | the registries still hold exactly the handlers that are live after it |
| Registries.WrappedIDReplacesHandler | go/hub.go:214-219 | a hub's first handler is replaced by the one subscribed to its channel after 2^64 - 1 other subscriptions, which gets its ID again |
| ByteOrder.SortSet | go/hub.go:860-869 | the peers of a set in ascending order of ID, each once |
| ByteOrder.SortIsUnique | go/hub.go:860-869 | with distinct IDs there is one such order, so map order does not show |
| Hubs.Hub.SubscribePeer | go/hub.go:252-281 | empty and unauthorised channels are refused; otherwise the peer's own table gains exactly that channel, the channel's entry the peer, and a missing queue is made; nothing else changes |
| Hubs.Hub.UnsubscribePeer | go/hub.go:303-318 | both indices lose the pair, and an emptied channel its entry |
| Hubs.Hub.AddPeerLocked | go/hub.go:657-668 | registers a peer; OnConnect is due iff it was not registered |
| Hubs.Hub.RemovePeerLocked | go/hub.go:678-693 | unregisters a peer and takes it out of every channel; does nothing if it was not registered |
| Hubs.Hub.SubscribeWithError | go/hub.go:197-231 | adds the handler under the next ID, or refuses the empty channel |
| Hubs.Hub.SubscribeBroadcast | go/hub.go:418-436 | adds a broadcast handler under the next ID of the shared counter |
| Hubs.Hub.SubscribePublished | go/hub.go:797-815 | adds a publish handler under the next ID of the shared counter |
| Hubs.Hub.Unsubscribe | go/hub.go:221-230 | the effect of the closure on the tables |
| Hubs.Hub.Stats | go/hub.go:379-406 | number of peers, the channels in use other than `*`, and for each its peers plus handlers |
| Hubs.Hub.ChannelCount | go/hub.go:449-478 | the sum of what its two loops count |
| Hubs.Hub.ChannelSubscriberCount | go/hub.go:481-488 | peers plus handlers of the channel |
| Hubs.Hub.AllChannels | go/hub.go:524-555 | exactly the channels in use, sorted, each once |
| Hubs.Hub.CountsAgree | go/hub.go:379-406 | in every valid hub Stats, ChannelCount and AllChannels give the same channels, each with a subscriber |
| Hubs.Hub.CollectChannelPeersLocked | go/hub.go:846-870 | the subscribers of the channel and of `*`, each once, in order of ID |
| Hubs.Hub.SnapshotForPublish | go/hub.go:168-181 | the peers to send to, and whether nobody would be reached |
| Hubs.Hub.SendToPeer | go/hub.go:607-620 | if the queue is open and has room the peer gets exactly one frame more: the frame itself, or for a tcp peer what the encoder returns, which the far end reads as exactly that channel and frame when they fit its limit |
| Hubs.Hub.SendToChannel | go/hub.go:164-186 | the result and the queued delivery; while the hub runs, exactly the peers that subscribe to the channel or to `*` are offered the frame, once, in the form their transport needs |
| Hubs.Hub.EnqueuePublishDelivery | go/hub.go:738-752 | queues at the end while fewer than 256 wait, otherwise hands over to exactly one goroutine |
| Hubs.Hub.ProcessPublishDelivery | go/hub.go:777-794 | each handler of the channel and of `*` once, and the publish handlers iff notifying |
| Hubs.Hub.BroadcastToPeers | go/hub.go:702-721 | every registered peer is offered the frame once, in the form its transport needs, no other is; the `*` handlers and, iff notifying, the broadcast handlers are called once |
| HubInvariants.BalancedStep | go/hub.go:94-141 | every step of every thread keeps: what was begun = what ended + what is queued + what a thread is in the middle of |
| HubInvariants.QueuesStep | go/hub.go:346-371 | every step keeps at most 256 in each queue, and FIFO order until the first overflow |
| HubInvariants.NoOverflowNoneHeld | go/hub.go:755-774 | before a queue overflows no goroutine holds a delivery for it and none was given up |
| HubSafety.OneLoopStep | go/hub.go:101-107 | at most one Run is in its loop, and one is exactly when the hub is running |
| HubSafety.DoneStep | go/hub.go:122-124 | deliveries are given up only after done is closed; done is closed exactly when some Run has returned, and stays closed |
| HubSafety.RunIsSafe | go/hub.go:94-141 | every run of any number of threads keeps the whole invariant |
| HubSafety.EveryDeliveryIsAccountedFor | go/hub.go:346-371 | in every reachable state: requested = accepted + about to be; accepted = processed + queued + held by goroutines + given up; processed = handlers read + about to be; effects decided on = performed + pending |
| HubSafety.EffectsAreRelational | go/hub.go:702-721 | what a publish sends, and a delivery does: sends to exactly the subscribers, or all registered peers for a broadcast; calls of exactly the live matching handlers |
| HubSafety.EffectsAtMostOncePerRequest | go/hub.go:777-794 | in every run no peer is sent a frame and no handler called with it more often than it was requested, less the deliveries given up |
| HubSafety.PublishIsCutShortIff | go/hub.go:174-181 | a publish starts nothing exactly when the hub is not running or nobody would be reached |
| HubExact.EveryStepCounts | go/hub.go:164-186 | whatever the step: an item is requested iff a running hub is asked and somebody listens; an effect is decided on iff its recipient listens, at that call for a publish to peers, else when the handlers are read |
| HubExact.PublishReachesSubscribers | go/hub.go:181-184 | a publish that is not cut short plans one send to each peer that subscribes to its channel or `*`, and none to any other |
| HubExact.EffectsAreExact | go/hub.go:164-186 | in every reachable state each effect has been performed or is pending exactly as often as the run decided on it, and each item accepted or about to be exactly as often as it was requested |
| HubExact.SteadyListenersGetEverything | go/hub.go:702-794 | over any stretch of any run, a peer subscribed throughout is sent every publish on its channels once for each request, a registered peer every broadcast and a live handler every matching item once for each delivery; who does not listen gets nothing |
| HubExact.SubscriptionLasts | go/hub.go:252-318 | a peer that is subscribed and neither unsubscribes nor is removed listens throughout |
| HubExact.TablesFollowCalls | go/hub.go:653-699 | over any step: a peer is registered exactly from addPeer to removePeer, and subscribed exactly from an accepted SubscribePeer to an UnsubscribePeer of that channel or its removal |
| HubExact.GrantsFollowCalls | go/hub.go:207-230 | over any step: a token of the kind asked for is granted exactly by a subscription, except on the empty channel, and used up exactly by its closure |
| HubExact.RunningFollowsCalls | go/hub.go:94-125 | the hub runs from a Start to the stop of its loop, and at no other time |
| HubExact.CallsAreCounted | go/hub.go:109-125 | addPeer is begun only by AddPeer, removePeer only by RemovePeer and, once for every registered peer, by a Run that stops |
| HubProgress.DrivesLower | go/hub.go:346-371 | every step of a thread under way brings the end of what was begun nearer, whatever its kind |
| HubProgress.RunningHubCanSettle | go/hub.go:94-141 | from every reachable state of a running hub, without further calls, stops or losses, its threads can finish: every effect decided on is performed, every item requested has had its handlers read unless it had been given up, and additions, removals and callbacks are done |
| HubSafety.QueuesAreFIFOUntilOverflow | go/hub.go:356-369 | in every reachable state a queue that never overflowed satisfies accepted = processed ++ queued |
| HubSafety.LifecycleIsAccountedFor | go/hub.go:653-699 | per peer: every addPeer and removePeer call is done, queued or under way; OnConnect minus OnDisconnect calls, with those due, is 1 iff registered; a disconnected peer is closed |
| HubSafety.TablesAgree | go/hub.go:252-318 | in every reachable state the indices mirror each other, no entry is empty, and the counts agree |
| HubSafety.HandlersAreExact | go/hub.go:207-231 | in every reachable state with fewer than 2^64 subscriptions a handler is present exactly from subscribing to its closure's first call, and all IDs differ |
| HubSafety.CleanupIsComplete | go/hub.go:109-125 | if no peer is added or subscribes meanwhile, once Run has returned the hub has no peer and none of those it had is in any channel |
| HubSchedules.DoneIffRunReturned | go/hub.go:109-125 | in every reachable state done is closed iff some Run has finished its cleanup |
| HubSchedules.RunningHubGivesUpIff | go/hub.go:109-125 | in every reachable state of a running hub, some continuation in which no Run stops gives up an accepted delivery iff done is closed or an earlier Run is still cleaning up |
| HubSchedules.RestartedHubDiscards | go/hub.go:755-774 | a run from a new hub in which a hub that runs for the second time gives up a delivery it has accepted |
| HubSchedules.OverflowReorders | go/hub.go:755-774 | a run from a new hub after which what was processed is not the beginning of what was accepted |
| HubSchedules.OrderIsKeptIff | go/hub.go:738-752 | from any reachable state with a queue that has not overflowed, a delivery about to be offered keeps its place in every continuation iff the queue has room |
| HubRemovals.RemoveCanOvertakeAdd | go/hub.go:559-604 | a run from a new hub: AddPeer has returned, RemovePeer is called, and at the end, with nothing pending, the peer is registered |
| HubRemovals.RemoveLeavesRegisteredIff | go/hub.go:127-135 | in any reachable state of a running hub with no removal of the peer pending: after RemovePeer, and with no further AddPeer, some run ends with the peer registered and nothing pending iff an addPeer of it was pending at the call; otherwise every run unregisters it |
| TcpFrames.EncoderCorrectIff | go/stream.go:301-310 | the encoder returns the wire form iff 8 + channel + frame fits in a uint32 |
| TcpFrames.EncodeStreamFrame | go/stream.go:301-310 | the buffer it fills, or that it panics, for all sizes including wrapped ones |
| TcpFrames.EncodeAdapterFrame | go/adapter/tcp/tcp.go:394-403 | the second copy of the encoder gives the same result for every input |
| TcpFrames.ReadFrameIff | go/adapter/tcp/tcp.go:358-392 | the reader returns (c, f) and leaves rest iff the bytes are the wire form of (c, f), within the limit, followed by rest |
| TcpFrames.DecidedIff | go/adapter/tcp/tcp.go:358-392 | exactly the truncated reads depend on what follows; a message read, and an oversize or malformed one, is decided |
| TcpFrames.ReadsAsIff | go/adapter/tcp/tcp.go:358-403 | bytes are read as a message whatever follows them iff they are its wire form and it is within the limit |
| TcpFrames.ReadAnyPrefix | go/adapter/tcp/tcp.go:358-392 | of a stream cut at any byte the reader returns exactly the messages that arrived whole, then a truncation |
| TcpFrames.WholeIsMaximal | go/adapter/tcp/tcp.go:358-392 | that number of messages is the largest whose wire forms fit before the cut |
| TcpFrames.StreamRoundTrip | go/adapter/tcp/tcp.go:358-403 | repeated reads of the concatenated encodings return the list that was sent and consume every byte |
| TcpLink.Conn.ReadTCPFrame | go/adapter/tcp/tcp.go:358-392 | the result and the bytes left depend on the bytes alone, however the network segments them |
| TcpLink.Conn.WriteAll | go/adapter/tcp/tcp.go:405-417 | through any short writes all bytes go out in order, or on failure a prefix of them; it succeeds if no write fails or takes nothing |
| TcpLink.WritePump | go/adapter/tcp/tcp.go:337-356 | a prefix of the queued frames' bytes goes out, and all of them if no write fails or takes nothing |
| TcpLink.HandleConn | go/adapter/tcp/tcp.go:232-305 | over a stream of messages cut anywhere: nothing is dispatched if the hub does not run, no message came whole, or an authenticator is set and the first one exceeds the handshake limit or is rejected; otherwise every message that came whole, less the handshake, up to the hub's first refusal |
| TcpLink.ServedMessages | go/adapter/tcp/tcp.go:241-304 | what is served of any such stream, for every authenticator and whether or not the hub runs |
| TcpLink.PipePeer | go/adapter/tcp/tcp.go:314-335 | the same for a dialled connection, with no handshake |
| TcpLink.ReadLoop | go/adapter/tcp/tcp.go:289-304 | the shared loop dispatches every message up to the first read failure or refusal |
| TcpLink.WholeConnection | go/adapter/tcp/tcp.go:241-304 | everything sent is served, minus only the first message when an authenticator is set |
| TcpLink.LinkPreservesMeaning | go/hub.go:607-636 | whatever prefix of the queued bytes gets through, the far end dispatches exactly the messages that are whole in it, in order |
| TcpLink.HubToHub | go/hub.go:607-636 | over every run of a tcp peer that is offered frames some messages are read from, as SendToPeer offers them: of the messages Send accepted the far hub is asked, in order, to do exactly those that were drained and went out whole |
| TcpLink.PublishArrivesAsPublishIff | go/hub.go:607-636 | a publish decodes and dispatches as a publish of the same channel and frame iff the channel is not empty; on the empty channel what was read dispatches as a broadcast |
| TcpLink.OversizeEndsTheLink | go/adapter/tcp/tcp.go:375-377 | an oversize message ends the connection after the messages before it |
| SseAdapter.SplitLines | go/adapter/sse/sse.go:202-209 | the lines, each ended by LF, are the frame again |
| SseAdapter.SplitFrameLines | go/adapter/sse/sse.go:202-209 | the loop builds the same lines |
| SseAdapter.WriteEventFrame | go/adapter/sse/sse.go:189-196 | writes one data line per line and a blank line |
| SseAdapter.WriteHeartbeatFrame | go/adapter/sse/sse.go:198-200 | writes the comment line and a blank line |
| SseAdapter.Serve | go/adapter/sse/sse.go:158-186 | the bytes of a whole connection: the retry line, then every output in order |
| SseClient.StreamRoundTripIff | go/adapter/sse/sse.go:158-209 | a client that decodes the stream as UTF-8 and parses it dispatches exactly the frames sent, in order, with empty frames, leading spaces and trailing newlines, and nothing for heartbeats, iff every frame is well-formed UTF-8 without a CR; without CRs it dispatches the decoded frames |
| SseAdapter.BytesRoundTripIff | go/adapter/sse/sse.go:189-209 | a parser fed the bytes undecoded gets exactly the frames sent iff none has a CR |
| SseClient.DecodeStream | go/adapter/sse/sse.go:158-209 | decoding a whole stream decodes its frames one by one and changes nothing else |
| SseClient.AnyCutDispatchesPrefix | go/adapter/sse/sse.go:170-209 | a stream cut anywhere, also within a character, dispatches a prefix of what the whole dispatches, whatever the frames |
| SseAdapter.FeedRetry | go/adapter/sse/sse.go:158 | the retry line sets the reconnection time iff it is not negative, and dispatches nothing |
| SseClient.FeedDecodedOutputs | go/adapter/sse/sse.go:170-209 | from between two outputs, any decoded run of events and heartbeats without CRs adds exactly the decoded frames |
| ZmqMessages.DecodeIff | go/adapter/zmq/zmq.go:364-375 | decoding returns (c, f) iff the payload is the encoding of (c, f) and c has no NUL; so what decodes re-encodes to itself |
| ZmqMessages.DecodeFailsIff | go/adapter/zmq/zmq.go:364-375 | decoding fails iff there is no NUL |
| ZmqMessages.RoundTripIff | go/adapter/zmq/zmq.go:413-419 | decode(encode(c, f)) = (c, f) iff c has no NUL |
| ZmqMessages.EncodeMessage | go/adapter/zmq/zmq.go:413-419 | the buffer built by appending |
| ZmqMessages.DecodeMessage | go/adapter/zmq/zmq.go:364-375 | the scan finds the first NUL |
| RedisKeys.NamesRoundTrip | go/adapter/redis/redis.go:294-311 | the name of a channel's key gives back the channel, and the broadcast key the empty one |
| RedisKeys.PatternsAreExact | go/adapter/redis/redis.go:294-304 | with a glob-free prefix the two patterns match exactly the broadcast key and the names under the channel prefix |
| RedisKeys.KeysAreExact | go/adapter/redis/redis.go:108 | a bridge whose prefix has no `*` (and no class or escape) receives each of its keys once |
| RedisKeys.ReceivedOnceIff | go/adapter/redis/redis.go:108 | for prefixes without classes and escapes, every channel is received exactly once iff the prefix has no `*`; `?` does no harm |
| RedisKeys.StarPrefixDuplicates | go/adapter/redis/redis.go:108 | with a `*` in the prefix before y, the channel y:broadcast is received twice |
| RedisKeys.PrefixesInterfereIff | go/adapter/redis/redis.go:294-311 | for a prefix p without `*`, classes and escapes, bridges of prefix p receive something of any prefix q iff the two fit and are equally long, or one, with a colon, fits the other's channel prefix where they overlap |
| RedisKeys.GlobFreeInterfereIff | go/adapter/redis/redis.go:294-311 | for a glob-free prefix p, iff p = q or one, followed by a colon, starts with the other's channel prefix |
| RedisCluster.RunKeepsShape | go/adapter/redis/redis.go:109-184 | in every run, with any overlap of Start calls: delivered frames equal the original's kind, channel and bytes, come from another node, and no hook call is ever due for a frame that a bridge delivered |
| RedisCluster.ReceivedIsOrigin | go/adapter/redis/redis.go:166-183 | what a bridge makes of a message is the item that was published |
| RedisTraffic.DeliveriesPerMessage | go/adapter/redis/redis.go:157-184 | in every run, with Start, Stop and Run at any time and in any overlap: at most one delivery for each message at each other node, none at its own, and hook calls only at the node of the call |
| RedisTraffic.AtMostOneMessageIff | go/adapter/redis/redis.go:109-121 | in every run a call sends at most as many messages as hooks for its kind are installed when it is processed, and may send as many; so at most one in every continuation iff at most one is installed then |
| RedisBounds.TrafficIsBounded | go/adapter/redis/redis.go:109-184 | in every run with at most one hook of each kind installed whenever a call is processed: at most one message, at most one delivery per other node, none at its own, at most 1 + (N - 1) in all |
| RedisBounds.SequentialIsSingleHooked | go/adapter/redis/redis.go:98-155 | that condition holds in every run in which Start is called only after every earlier call has returned |
| RedisBounds.SequentialTrafficIsBounded | go/adapter/redis/redis.go:98-184 | from a new cluster on, if Start is called only after every earlier call has returned: at most one message, at most one delivery per other node, none at its own, at most 1 + (N - 1) in all |
| RedisBounds.TrafficIsExact | go/adapter/redis/redis.go:109-184 | without errors, losses, stops, or deliveries given up by a hub, once drained: exactly one message and one delivery at every other node |
| RedisBounds.UpClusterIsReached | go/adapter/redis/redis.go:98-129 | running the hub and calling Start at every node of a new cluster reaches a cluster that meets the conditions of that |
| RedisBounds.TrafficOfStartedIsExact | go/adapter/redis/redis.go:98-184 | so from a new cluster on: all nodes started, then only steps that succeed, and once drained exactly one message and one delivery at every other node |
| RedisBounds.TidyHoldsOne | go/adapter/redis/redis.go:98-155 | while Start calls do not overlap, at most one hook of each kind is held |
| RedisRestarts.OverlappingStartsDuplicate | go/adapter/redis/redis.go:131-147 | a run in which Start is called again before the first call has returned, and a continuation that sends one publish twice |
| RedisRestarts.CleanupTakesAllDown | go/adapter/redis/redis.go:131-155 | when a Start has cleaned up, its session holds no hook and no subscription, the bridge can be started again and nothing else has changed, whatever Stop had taken down before |
| RedisRestarts.ReceiveHandsOver | go/adapter/redis/redis.go:157-184 | a received message is handed to the hub once, as the item of the call it came from, iff that was another node's and the hub runs; no hook is called for it |
| RedisBridge.Bridge.TryStart | go/adapter/redis/redis.go:98-104 | starts a session iff none is running |
| RedisBridge.Bridge.ReceiveLoop | go/adapter/redis/redis.go:157-184 | the calls made on the hub: every well-formed envelope of another source, in order, up to the hub's first refusal |
| RedisBridge.Bridge.Start | go/adapter/redis/redis.go:90-185 | a call that returns leaves no hook and no subscription, handed over what the loop says, and reports a refusal, a failed receive, or nothing if cancelled; while running it does nothing |
| RedisBridge.Bridge.Stop | go/adapter/redis/redis.go:188-228 | takes down what the running call has stored, and only that |
| RedisBridge.HandsOverOthers | go/adapter/redis/redis.go:157-184 | of a cluster's messages a bridge hands over the other nodes' items, unchanged and in order, and none of its own |
| Pipes.OnePublishPerPath | go/stream.go:233-273 | in an acyclic graph one publish causes at most as many publishes at a hub as there are paths to it, exactly as many if nothing is stopped or refused, all of the same kind, channel and bytes |
| Pipes.AtMostOnceIff | go/stream.go:233-273 | in an acyclic graph every run makes at most one publish at a hub iff at most one path leads to it |
| Pipes.StepCosts | go/stream.go:245-256 | every step, from any pending deliveries, lowers the weight of what is pending |
| Pipes.RunsAreBounded | go/stream.go:233-273 | so no run is longer than the weight at its start |
| Pipes.TerminatesIffAcyclic | go/stream.go:233-273 | forwarding ends for every publish iff the pipes form no cycle |
| Pipes.PipeKeepsAcyclicIff | go/stream.go:233-236 | a new pipe keeps that iff it is a refused self-pipe or its destination did not lead to its source |
| Backoffs.NextGrowsIff | go/adapter/tcp/reconnect.go:282-291 | the delay does not shrink iff it is within the maximum and the multiplier is at least 1 or the product rounds to nothing |
| Backoffs.NextIsExact | go/adapter/tcp/reconnect.go:282-291 | the next delay is the product rounded down unless that is zero or the delay is not positive, then the delay itself, and never more than the maximum |
| Backoffs.DelayIsBounded | go/adapter/tcp/reconnect.go:282-291 | no delay exceeds the larger of InitialBackoff and MaxBackoff |
| Backoffs.DelaysGrow | go/adapter/ws/reconnect.go:248-257 | within a failure run delays are positive and non-decreasing, for a multiplier of at least 1 |
| Backoffs.DelayClosedForm | go/adapter/ws/reconnect.go:248-257 | for a whole multiplier the delay before retry k is min(MaxBackoff, InitialBackoff * m^k) |
| Reconnecting.Client.SetConn | go/adapter/tcp/reconnect.go:254-259 | connection and state change together |
| Reconnecting.Client.ClearConn | go/adapter/tcp/reconnect.go:261-268 | TCP clears connection and state only for that connection; WebSocket sets the state in any case |
| Reconnecting.SessionsEndAlike | go/adapter/ws/reconnect.go:124-129 | TCP's clearConn and setState together do what WebSocket's single section does |
| Reconnecting.Client.Close | go/adapter/tcp/reconnect.go:200-214 | marks the client closed, forgets the connection and hands it out to be closed |
| Reconnecting.Client.Connect | go/adapter/tcp/reconnect.go:72-168 | the loop's result, OnReconnect arguments, sleeps and connections, for every sequence of dial, handshake, session, sleep and Close outcomes; a closed client returns at once |
| Reconnecting.AttemptsWithinLimit | go/adapter/tcp/reconnect.go:90-97 | while Connect goes on, attempts at the loop head and OnReconnect arguments stay within MaxRetries |
| Reconnecting.SessionsRecur | go/adapter/tcp/reconnect.go:82-167 | at no point of a run that goes on have more than MaxRetries rounds in a row failed; a run without end connects again and again |
| Reconnecting.GivesUp | go/adapter/ws/reconnect.go:90-104 | n + 1 first failures return failure after OnReconnect(1..n) with the scheduled delays; after a session n failures suffice |
| Reconnecting.GivesUpIff | go/adapter/ws/reconnect.go:82-155 | undisturbed, Connect returns failure iff MaxRetries is positive and the attempts pass it at some round |
| Reconnecting.EndsIff | go/adapter/tcp/reconnect.go:82-167 | for any rounds: Connect returns nil iff it comes to one with the client closed or the context cancelled at a check, the failure iff it comes to one with too many attempts, and a cancelled sleep iff it comes to one that retries then |
| Reconnecting.RoundReports | go/adapter/tcp/reconnect.go:83-104 | a round that stops or gives up calls no OnReconnect and starts no sleep; any other calls it with the attempts so far and sleeps the delay that is next |
| Reconnecting.SessionStartsOver | go/adapter/tcp/reconnect.go:124-167 | after a session and so many failures in a row, one more than their number counts as attempts and the delay is the scheduled one, whatever came before |
| Reconnecting.SleepsAreBounded | go/adapter/tcp/reconnect.go:98-101 | no sleep of any run exceeds the larger of the two limits |
| ReconnectRuns.StateIsCoherent | go/adapter/tcp/reconnect.go:200-274 | with one Connect at a time and Close at any step, state is Connected iff there is a connection, in both clients |
| ReconnectRuns.SecondConnectIsSafeIff | go/adapter/tcp/reconnect.go:72-168 | after any run with one Connect at a time, one more Connect leaves state and connection in agreement in every continuation iff the client is closed or every earlier Connect has returned, is about to give up, or is cancelled between two attempts |
| ReconnectRuns.TwoConnectsAreIncoherent | go/adapter/ws/reconnect.go:66-109 | two calls of Connect reach such a disagreement |
| ReconnectRuns.CloseBoundsConnects | go/adapter/tcp/reconnect.go:83-85 | after Close each Connect that had passed its check connects at most once more, any other never |
| ReconnectRuns.ConnectsAfterCloseIff | go/adapter/tcp/reconnect.go:83-125 | after Close the client can become connected iff some Connect is between its check and setConn, and was not cancelled before its dial was done |
| ReconnectRuns.RunKeepsLimits | go/adapter/ws/reconnect.go:82-155 | in every run of any number of Connects attempts stay within MaxRetries at the loop head and sleeps within the limits |
| ReconnectRounds.ConnectIsARun | go/adapter/tcp/reconnect.go:72-168 | for every sequence of rounds the stepwise Connect has a run with the same result, sleeps and number of connections, and the same attempts and delay if it goes on |

## Left out

- Sockets, TLS, HTTP and WebSocket upgrades, go-redis and zmq4: a connection is a sequence of
  segments that may end anywhere, with writes that may be short or fail; Redis copies a message to
  every matching subscription once per matching pattern, and may lose it.
- Deadlines and timers, and with them ErrHandshakeTimeout: when a sleep, dial or read ends, and how,
  is left open.
- JSON of `Message` and of the Redis envelope: an envelope is its source ID and frame, or is not one.
- Authenticators, `Service` action handlers, configuration defaults, `String` methods, nil receivers,
  ZMQ roles, endpoints and lifecycle, and the compatibility packages: single branches.
- Random IDs: Redis source IDs are distinct by assumption; peer IDs may coincide.
- Data races below a locked section or a channel operation; a handler that panics is one that returns.
- Handlers that call back into the hub are calls by some thread, at any time; blocking of the hub by a
  slow handler is not modelled.
- Rounding and overflow of floating-point backoff: multipliers are positive rationals, products exact
  and truncated.
- Int is 64 bits wide, and slices are shorter than 2^63.
- In glob patterns, character classes and escapes: a prefix with `[` or a backslash is outside the
  results about Redis names.
- The fallback of `Pipe` for streams that are not hubs, and hubs that start or stop while they
  forward other than by refusing or losing a publish.
- Hubs.Hub.SendToChannel: requires that encoding does not panic for its tcp targets (the cases are in
  TcpFrames.EncodeStreamFrame), because the panic would end the calling goroutine half-way.
- Hubs.Hub.BroadcastToPeers: requires the same of the registered tcp peers.
- Hubs.Hub.SendToPeer: requires the same of its peer.
- Hubs.Hub.SubscribePeer: requires that a peer new to this hub has no subscriptions, since the mirror
  is about peers used with one hub (Registries.SharedPeerKeepsMirrorIff).
- Hubs.Hub.UnsubscribePeer: requires the same.
- Hubs.Hub.AddPeerLocked: requires the same.
- Peers.Peer.Close: runs without interference; its steps one by one are in Peers.RunKeepsInv and
  Peers.CloseCallsTheLastHook.
- Reconnecting.Client.Connect: Close falls only between rounds and during sessions; at every other
  step it is in ReconnectRuns.
- TcpLink.HandleConn: the hub accepts a given number of calls and then refuses, because it has stopped.
- Hubs.Hub.SubscribeWithError: handlers are never nil.
- RedisBounds.TrafficIsExact: needs hubs that give up no delivery; a hub whose `done` is closed may
  (HubSchedules.RunningHubGivesUpIff). The upper bounds hold with such losses.
- RedisBridge.Bridge.Start: runs without interference; overlapping calls are in RedisTraffic.
- Hub.AllPeers, which sorts as CollectChannelPeersLocked does, and Hub.CanSubscribePeer, which checks
  as SubscribePeer does.
- Liveness under a fair scheduler: the hub's theorems say what has happened in every run and that its
  threads can always finish (HubProgress.RunningHubCanSettle), not that they are scheduled.
