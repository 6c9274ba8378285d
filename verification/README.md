# ChildBroker routing state machine in Dafny

This project models the child-side broker of the Mojo EDK
(`ChildBroker` in `mojo/edk/system/child_broker.cc`). The broker is a
per-process singleton that connects message pipes. Each pipe id has two
endpoints:

- when the other endpoint lives in the parent or in a sibling process,
  the broker asks the parent where the peer lives;
- when both endpoints turn out to be local, it joins them through a lazily
  created pair of in-process channels and cancels the request upstream.

Until the asynchronous channel to the parent exists, control messages are
queued. Second local connects are staged; both are flushed and replayed
when `InitAsyncChannel` runs.

The model is a pure transition function. `Broker.Step(state, event)`
returns either `Crash(fault)` or `Done(next, effects)`:

- `Crash(fault)` stands for a failed `CHECK`, the `NOTREACHED` branch
  (taken as fatal, its debug-build reading), or a use of the still-null
  parent channel;
- `Done(next, effects)` carries the next state and the effects in order:
  channel creation, writes, route additions and removals, and dispatcher
  notifications.

Events are the broker's entry points:

- `ConnectMessagePipe`;
- `CloseMessagePipe`;
- `OnReadMessage`, for the two message types it understands plus any other
  value;
- `InitAsyncChannel`;
- the `ChannelDestructed` callback.

`Broker.Run` folds a sequence of events.

Modules:

- `Types`: identities, control messages, effects, and the written-message
  projection `Written`.
- `Keys`: the least element of a finite set of keys. The broker's maps
  are assumed to be visited in ascending key order, so this is where a
  visit begins.
- `Broker`: the state, the operations and `Step`.
- `Invariant`: what every reachable state satisfies, and proofs that each
  event preserves it.
- `Properties`: per-event promises, including "crashes exactly when"
  statements.
- `Runs`: promises about short event sequences, namely queue order across
  the opening of the parent channel and the two-local-endpoints handshake.
- `TokenChannel`: the Windows synchronous token channel, reduced to its
  32-bit request sizes and its lock discipline.

Opaque objects are modelled by identity only:

- endpoints (message-pipe dispatchers) and channels (`RoutedRawChannel`);
- channel identities come from a counter, which stands for
  `new RoutedRawChannel`.

The broker route id `kBrokerRouteId` is a field of the state fixed at
construction, because `broker_messages.h` is not part of this model.
Pipe ids and process ids are unbounded naturals. The broker never does
arithmetic on them, so their 64-bit width plays no role.

Two behaviours of the code are easy to misread:

- `ChannelDestructed` only erases the first registry entry that maps to
  the destroyed channel (`child_broker.cc:236-244`). It does not purge
  connected endpoints or routes that use that channel.
  `Properties.DestructedDropsAtMostOne` states exactly this.
- `CreatePlatformChannelPair` and `HandleToToken` release the synchronous
  channel's lock whatever the exchange returned
  (`child_broker.cc:52-54`, `child_broker.cc:70-72`). `TokenToHandle`
  releases it only when the exchange succeeded (`child_broker.cc:90-95`);
  see Findings.

## Model

| member | source | states |
|---|---|---|
| Broker.Initial | mojo/edk/system/child_broker.cc:169-172 | A new broker has no parent channel, no in-process pair and an empty queue |
| Broker.WriteAsync | mojo/edk/system/child_broker.cc:246-254 | The message is tagged with the broker route. With a parent channel it is written there and the queue is unchanged. Without one it is appended to the queue and nothing is written. Either way queue followed by written messages grows by exactly that message, and nothing else changes |
| Broker.Announce | mojo/edk/system/child_broker.cc:154-158 | A first connect records the endpoint as waiting under the pipe id and sends or queues exactly one connect request for it; nothing else changes |
| Broker.EnsurePair | mojo/edk/system/child_broker.cc:124-139 | The in-process pair is created only if missing, from two fresh, different channels; an existing pair is kept and nothing is emitted |
| Broker.JoinLocal | mojo/edk/system/child_broker.cc:115-151 | A second local connect writes exactly one cancel for the pipe id, to the parent. The waiting endpoint goes on the first in-process channel and the new one on the second, both routed by the pipe id. The waiting entry is removed, other attachments are kept, the pair is reused when it exists and is fresh otherwise; apart from pending, attachments, routes, the pair and the channel counter, the state is unchanged |
| Broker.JoinLocalExact | mojo/edk/system/child_broker.cc:115-151 | Routes and attachments change at exactly the two entries of the pair, and the effects are exactly the cancel write, the two channel creations when the pair is new, the two route additions and the two channel notifications |
| Broker.ConnectLive | mojo/edk/system/child_broker.cc:99-159 | With the parent channel up, a connect writes exactly one message to the parent: a cancel if the pipe id was waiting, else a connect request. Afterwards the endpoint is attached or waiting, no endpoint is detached, and other waiting entries are kept |
| Broker.ConnectLiveJoins | mojo/edk/system/child_broker.cc:115-158 | A live connect makes no pipe id other than its own start or stop waiting, and a waiting pipe id ends with both of its endpoints attached |
| Broker.Replay | mojo/edk/system/child_broker.cc:268-273 | Replaying the staged connects empties the staging map, writes as many messages as there are staged pipe ids, all to the parent, each tagged with the broker route and about a staged pipe id; queue, registry and parent are unchanged |
| Broker.ReplayPreserves | mojo/edk/system/child_broker.cc:268-273 | A replay detaches no endpoint and keeps every waiting entry that was not staged |
| Broker.ReplayAttaches | mojo/edk/system/child_broker.cc:268-273 | After a replay every staged endpoint is attached or waiting under its pipe id |
| Broker.ReplayJoins | mojo/edk/system/child_broker.cc:268-273 | A staged connect whose pipe id is still waiting is joined locally by the replay: both the waiting endpoint and the staged one end attached |
| Broker.ReplayAnswers | mojo/edk/system/child_broker.cc:268-273 | Every staged pipe id gets its own message: a cancel if it was waiting, else a connect request. With the count of messages equal to the number of staged pipe ids, each gets exactly one |
| Broker.InitAsync | mojo/edk/system/child_broker.cc:256-274 | Opening the parent channel: the parent is a fresh channel, queue and staging map end empty, every write goes to the parent, the written messages start with the old queue in order followed by as many messages as there are staged pipe ids, each about a staged pipe id, and every staged endpoint ends attached or waiting |
| Keys.Least | mojo/edk/system/child_broker.cc:269-272 | A member of the set no larger than any other member: the key a visit of the staging map starts from, under the assumed ascending order |
| Invariant.InitialInv | mojo/edk/system/child_broker.cc:169-172 | The constructed broker satisfies the invariant: channels allocated, distinct per role, phases respected, only connect requests queued |
| Invariant.ConnectLiveKeeps | mojo/edk/system/child_broker.cc:99-159 | A connect on a live broker keeps every channel allocated and the parent, pair and sibling channels distinct, and keeps an existing pair |
| Invariant.JoinLocalKeeps | mojo/edk/system/child_broker.cc:124-151 | A local join allocates its pair from channels different from the parent and from every sibling channel |
| Invariant.ReplayKeeps | mojo/edk/system/child_broker.cc:268-273 | Replaying staged connects keeps channel allocation and distinctness |
| Invariant.InitAsyncKeeps | mojo/edk/system/child_broker.cc:256-274 | Opening the parent channel keeps the invariant: afterwards nothing is queued or staged |
| Invariant.DestructedKeeps | mojo/edk/system/child_broker.cc:236-244 | Destruction of a channel keeps the invariant |
| Invariant.ConnectToProcessKeeps | mojo/edk/system/child_broker.cc:190-201 | Registering a sibling process on a fresh channel keeps registry channels pairwise distinct |
| Invariant.PeerConnectedKeeps | mojo/edk/system/child_broker.cc:202-226 | Resolving a waiting pipe keeps the invariant in all three outcomes |
| Invariant.AttachKeeps | mojo/edk/system/child_broker.cc:213-226 | Attaching an endpoint to an allocated channel keeps the invariant |
| Invariant.ReceiveKeeps | mojo/edk/system/child_broker.cc:184-230 | Every inbound message that does not crash keeps the invariant |
| Invariant.ConnectKeeps | mojo/edk/system/child_broker.cc:99-159 | Every connect that does not crash keeps the invariant |
| Invariant.StepKeeps | mojo/edk/system/child_broker.cc:99-274 | Every event that does not crash keeps the invariant |
| Invariant.RunKeeps | mojo/edk/system/child_broker.cc:99-274 | The invariant holds after any run of events that does not crash |
| Properties.ConnectFirst | mojo/edk/system/child_broker.cc:154-158 | A first connect adds exactly that waiting entry and writes one connect request to the parent, or queues it when there is no parent channel; nothing else changes |
| Properties.ConnectSibling | mojo/edk/system/child_broker.cc:115-151 | Second connect with the parent up: one cancel to the parent; waiting endpoint on the first in-process channel, new endpoint on the second, both routed and notified; waiting entry gone; the state differs only in those entries and in the pair when it is new; the effects are exactly the cancel write, the two channel creations when the pair is new, the two route additions and the two notifications |
| Properties.PairCreatedOnce | mojo/edk/system/child_broker.cc:124-139 | Once created, the in-process pair is never replaced by any event |
| Properties.ConnectCrashes | mojo/edk/system/child_broker.cc:105-113 | A connect crashes if and only if the pipe id is waiting, there is no parent channel and a second endpoint is already staged for it |
| Properties.ConnectStaged | mojo/edk/system/child_broker.cc:105-113 | Before the parent channel exists a second local connect is only staged: no effect and no other change |
| Properties.ConnectTagged | mojo/edk/system/child_broker.cc:246-254 | Every message a connect writes carries the broker route and goes to the parent channel |
| Properties.InitTagged | mojo/edk/system/child_broker.cc:256-274 | Every message written when the parent channel opens carries the broker route and goes to the parent |
| Properties.WritesTaggedToParent | mojo/edk/system/child_broker.cc:246-254 | In a reachable state, every message any event writes carries the broker route and goes to the parent channel |
| Properties.PeerResolved | mojo/edk/system/child_broker.cc:202-226 | The waiting entry is always consumed. Process 0 attaches to the parent channel. An unknown process fails the endpoint once with a read shutdown and attaches nothing. A known sibling attaches to its channel. It crashes exactly for process 0 without a parent channel or a known sibling whose endpoint is already attached |
| Properties.PeerUnknownFatal | mojo/edk/system/child_broker.cc:210 | An answer for a pipe id that is not waiting is fatal |
| Properties.UnexpectedMessageFatal | mojo/edk/system/child_broker.cc:227-229 | Any other message type is fatal |
| Properties.ProcessRegistered | mojo/edk/system/child_broker.cc:190-201 | Announcing a process crashes if and only if it is already registered. Otherwise exactly one entry is added, on a fresh channel, earlier entries are kept, one channel creation is emitted and nothing else changes |
| Properties.CloseDetaches | mojo/edk/system/child_broker.cc:161-167 | Close crashes if and only if the endpoint is not attached; otherwise its route for the pipe id is removed from its channel and the endpoint detached, and nothing else changes |
| Properties.DestructedDropsAtMostOne | mojo/edk/system/child_broker.cc:236-244 | Destruction removes at most one registry entry, and only one that maps to that channel; surviving entries are unchanged; nothing else changes and nothing is emitted |
| Properties.DestructedTwiceIsNoop | mojo/edk/system/child_broker.cc:236-244 | In a reachable state the destroyed channel leaves the registry, so a repeated notification changes nothing |
| Runs.ConnectsQueueInOrder | mojo/edk/system/child_broker.cc:246-254 | Before the parent channel exists, connects for fresh pipe ids send nothing and queue one request each, in issue order, after what was queued; each pipe id waits with its endpoint |
| Runs.QueuedConnectsReachParentInOrder | mojo/edk/system/child_broker.cc:256-266 | When the parent channel opens after such connects, the parent first receives the old queue and then those requests in issue order; afterwards nothing is queued or staged and all writes went to the parent |
| Runs.SiblingsJoinLocally | mojo/edk/system/child_broker.cc:99-159 | Two local endpoints of one pipe id with the parent up: the parent sees one connect and then its cancel, and the endpoints are joined through the two different in-process channels |
| Runs.ReplayOne | mojo/edk/system/child_broker.cc:268-273 | Replaying a single staged connect for a waiting pipe id is exactly a local join |
| Runs.InitWritten | mojo/edk/system/child_broker.cc:256-274 | Opening the parent channel writes the queue, then whatever the replay of staged connects writes |
| Runs.InitJoinsWaiting | mojo/edk/system/child_broker.cc:268-273 | Opening the parent channel joins each staged connect whose pipe id was still waiting: both endpoints end attached |
| Runs.InitAnswersStaged | mojo/edk/system/child_broker.cc:256-273 | After the flushed queue, every staged pipe id gets its message: a cancel if it was waiting, else a connect request. With the count in `Broker.InitAsync`, each gets exactly one |
| Runs.InitStagedWrites | mojo/edk/system/child_broker.cc:256-274 | With one queued connect and its staged sibling, the parent receives the connect and then its cancel |
| Runs.InitStagedJoins | mojo/edk/system/child_broker.cc:268-273 | The staged endpoint and the waiting one end on the two different in-process channels and the waiting entry is gone |
| Runs.InitJoinsStaged | mojo/edk/system/child_broker.cc:256-274 | Both of the above together for one opening of the parent channel |
| Runs.SiblingsBeforeParentJoinAfterInit | mojo/edk/system/child_broker.cc:105-113 | From a new broker, two local endpoints connected before the parent channel exists are joined locally once it opens. The parent sees the connect and then its cancel, and nothing is left queued or staged |
| TokenChannel.HandleToTokenRequest | mojo/edk/system/child_broker.cc:60-69 | The size field is the 32-bit truncation of header plus one HANDLE per entry, and the response is one 64-bit token per entry; both are exact when they fit in 32 bits |
| TokenChannel.TokenToHandleRequest | mojo/edk/system/child_broker.cc:78-89 | The size field is the header plus one 64-bit token per entry, and the response is one HANDLE per entry; both are exact when they fit in 32 bits |
| TokenChannel.ChannelPairRequest | mojo/edk/system/child_broker.cc:312-316 | A bare header goes out and two HANDLEs come back |
| TokenChannel.SizeExactIffFits | mojo/edk/system/child_broker.cc:60-61 | The HandleToToken size field equals the true message size if and only if that size fits in 32 bits |
| TokenChannel.TokenSizeExactIffFits | mojo/edk/system/child_broker.cc:78-79 | The TokenToHandle size field equals the true message size if and only if that size fits in 32 bits |
| TokenChannel.HandleToTokenOverflows | mojo/edk/system/child_broker.cc:60-67 | As written, 2^29 eight-byte handles wrap the size field to the header size, and the buffer cannot hold the handles copied into it |
| TokenChannel.CheckedRequestHoldsEntries | mojo/edk/system/child_broker.cc:60-67 | The checked request exists exactly when the size fits; then its size field is exact and its buffer holds every handle |
| TokenChannel.TokenToHandleOverflows | mojo/edk/system/child_broker.cc:78-85 | As written, 2^29 tokens wrap the size field to the header size, and the buffer cannot hold the tokens copied into it |
| TokenChannel.CheckedRequestHoldsTokens | mojo/edk/system/child_broker.cc:78-85 | The checked TokenToHandle request exists exactly when the size fits; then its size field is exact and its buffer holds every token |
| TokenChannel.PerformAsWritten | mojo/edk/system/child_broker.cc:50-96 | A call blocks exactly when the lock is held and otherwise delivers exactly when the exchange succeeded |
| TokenChannel.FailedTokenToHandleBlocksNext | mojo/edk/system/child_broker.cc:90-95 | As written, a failed TokenToHandle leaves the lock held and the next call blocks |
| TokenChannel.AsWrittenStallsAfterFailure | mojo/edk/system/child_broker.cc:90-95 | As written, after one failed TokenToHandle no later call is answered |
| TokenChannel.Perform | mojo/edk/system/child_broker.cc:50-96 | With the lock released on every path, a call blocks exactly when the lock is held, and otherwise frees the lock and delivers exactly when the exchange succeeded |
| TokenChannel.CallsWaitForHostHandle | mojo/edk/system/child_broker.cc:175-178 | The lock taken at construction makes every call block until the host handle arrives |
| TokenChannel.ServeNeverBlocks | mojo/edk/system/child_broker.cc:50-96 | From a free lock, with every call releasing it, any sequence of calls is answered in full and in order, and ends with the lock free |

## Left out

- `SetChildBrokerHostHandle` and `GetInstance` (`child_broker.cc:17-47`) are left out. They are handle plumbing, a platform `ReadFile`, a task post and a leaky singleton. The arrival of the parent channel is the `InitAsyncChannel` event.
- `OnError` (`child_broker.cc:232-234`) has an empty body, so it has no event.
- `WriteAndReadResponse` (`child_broker.cc:278-306`) is blocking Windows I/O. Whether a request's write and reads succeed is the `ok` parameter of each call.
- Windows creates the in-process pair through the synchronous channel without its lock (`child_broker.cc:126-127`). That handle exchange is not modelled; a pair is two fresh channels.
- `DCHECK`s are debug-only and are not modelled: thread affinity, the handle count of `CONNECT_TO_PROCESS`, and the singleton check in the constructor. The one exception is `NOTREACHED`, covered next.
- Properties.UnexpectedMessageFatal: takes the debug reading of `NOTREACHED` (`child_broker.cc:227-229`) and crashes on an unknown message type. `NOTREACHED` is a `DCHECK(false)`, so a release build ignores the message instead.
- The iteration order of the staging map and of the process registry is assumed to be ascending key. Their container types are declared in `child_broker.h`, which is not part of this model. No general contract depends on this order. `Invariant.Inv` keeps registry channels distinct, so at most one entry ever matches a destroyed channel. The replay order shows only in examples with one staged pipe id.
- The routed-channel layer (`RoutedRawChannel`) and dispatchers are opaque. Their calls appear as effects.
- Message bodies are not parsed. An inbound message arrives already decoded, and `Unrecognized` stands for every other type value.
- Concurrency is left out: the broker runs on one I/O thread, and the lock model treats calls as sequential.
- The values of `kBrokerRouteId`, the message type constants and `kBrokerMessageHeaderSize` are not modelled. `broker_messages.h` is not part of this model. The route is a state field and the header size a `Layout` parameter.
- `child_broker_host.h` and the parent side are not part of this model. The parent's answers are inbound events chosen freely.
- TokenChannel.TokenToHandleRequest: the same `static_cast<int>(count)` (`child_broker.cc:78-79`) is kept only modulo 2^32, as for HandleToToken below.
- TokenChannel.HandleToTokenRequest: `static_cast<int>(count)` can make the count negative for very large values. The model keeps only the value stored in the 32-bit size field, which is the same modulo 2^32.

## Findings

| source | as written | input that shows it | evidently intended | confidence | as-written member | corrected member |
|---|---|---|---|---|---|---|
| mojo/edk/system/child_broker.cc:90-95 | `TokenToHandle` unlocks `sync_channel_lock_` only inside the success branch | a `TokenToHandle` call whose write or read fails, followed by any other call | the lock is released on every path, as the other two requests do | high; not executed | TokenChannel.AsWrittenStallsAfterFailure | TokenChannel.ServeNeverBlocks |
| mojo/edk/system/child_broker.cc:60-67 | the request size is computed in 32 bits with no bound on `count` | `count` = 2^29 with 8-byte handles: the size wraps to the header size, and 2^29 handles are copied into a header-sized buffer | reject a request whose size does not fit 32 bits | low (callers likely pass few handles); not executed | TokenChannel.HandleToTokenOverflows | TokenChannel.CheckedRequestHoldsEntries |
| mojo/edk/system/child_broker.cc:78-85 | the `TokenToHandle` request size is computed in 32 bits with no bound on `count` | `count` = 2^29: the size wraps to the header size, and 2^29 tokens are copied into a header-sized buffer | reject a request whose size does not fit 32 bits | low (callers likely pass few tokens); not executed | TokenChannel.TokenToHandleOverflows | TokenChannel.CheckedRequestHoldsTokens |
