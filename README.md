# zlorp `Peer`: a verified model of its bookkeeping

`lib/peer.js` defines `Peer`, an event emitter holding an encrypted,
DHT-discovered channel to one remote public key. Under the transport, the DHT,
the cipher and the timers sits a small state machine:

- a readiness flag;
- the client table keyed by `host:port`, whose key order is the order of
  `for ... in`;
- the `connected` and `blacklist` sets;
- the outbound `queue`;
- the `connect` requests deferred until `ready`;
- the events the peer emits and the sends it hands to the transport.

This project models that state machine in Dafny and proves what it does.

- `wrappers.dfy`: `Option` and `Result`.
- `peer_model.dfy` (module `PeerModel`):
  - the data model: options and configuration, the crypto functions as
    uninterpreted function values, messages, events, the state record and
    its invariant;
  - one function per operation, giving its outcome and new state. Each
    listener and method of `Peer` is such a function: the constructor's
    guard, `_watchDHT`, the `announce` and `peer:<info-hash>` listeners,
    `connect`, the `data` handler, `_keepAlive` and `send`.
- `peer_object.dfy` (module `PeerObject`): class `Peer`, whose fields the
  methods update in place.
  - The `for ... in` broadcast, the `forEach` replay and the drain of the
    deferred requests are loops with invariants.
  - Each method is proved to leave the fields as the matching function of
    `PeerModel` says, and to keep the invariant.
- `peer_properties.dfy` (module `PeerProperties`): what the operations
  imply, over single calls and over arbitrary traces of calls and events.
  Examples are what a new client actually receives, deferred connects,
  blacklist permanence and the invariant.

The model follows the code as written, including three behaviours where the
code and the channel's design intent part ways:

- **Queue replay** (`lib/peer.js:122`). The design says the whole queue is
  replayed, in order, to the new connection only. The code instead calls
  `queue.forEach(this.send, this)`, so `send` receives the index as its
  target:
  - index 0 is falsy, so `queue[0]` is broadcast to every client, old ones
    included;
  - index 1 is a number without a `send` method, so a `TypeError` ends
    `connect`;
  - each message reached is pushed onto the queue again, so the queue does
    not hold each submitted message exactly once.

  `ReplayAsWritten`, `ConnectAsWritten` and `NewClientReceives` state this:
  a new client receives the `ACK` and at most one queued message.
- **Keepalive.** `_keepAlive` re-arms itself without its address
  (`lib/peer.js:131`). The design describes a periodic heartbeat, but only
  the first call sends an `ACK`. A later tick looks up the key `"undefined"`.
- **Throw during the drain.** When a connect deferred until `ready` throws
  (the replay above), the exception leaves `emit('ready')` and `_watchDHT`
  (`lib/peer.js:58`). The requests registered after it stay registered and
  never run, because `ready` is never emitted again. `lookupAndAnnounce()`
  (`lib/peer.js:59`) is skipped as well, so the announce/lookup loop never
  starts. `DrainSnoc`, `DeferredConnectRunsOnReady` and
  `DrainThrowStrandsLater` state this.

Heartbeats are recognised in two ways.

- **Outbound,** by identity with the module's `ACK` buffer. The model uses
  a constructor `Msg.Ack`, so a payload equal to those bytes is still
  queued.
- **Inbound,** by byte equality with the fifty `_` bytes (`AckBytes`).

A client dropped after a failed decryption keeps its `data` handler. The set
`wired` records which addresses have one, so a later message on that
connection is still handled.

## Model

| member | source | states |
|---|---|---|
| PeerModel.FirstMissing | lib/peer.js:13-25 | no property is reported exactly when all of `pub`, `myKey`, `socket`, `dht` are present; otherwise the one reported is the first absent in that order |
| PeerModel.Validate | lib/peer.js:20-32 | construction succeeds iff the four required options are present; each missing one fails with its own message, in order; on success the port, both info-hashes, `myIp` and `name` come from the options |
| PeerModel.HostOf | lib/peer.js:89-90 | the host is a prefix of the address with no `:`, ending at the first `:` or at the end |
| PeerModel.Without | lib/peer.js:104 | `delete clients[addr]`: exactly `addr` leaves the key order, and distinct keys stay distinct |
| PeerModel.Broadcast | lib/peer.js:142-144 | every send of a broadcast carries the one ciphertext, and there are no more sends than keys (`BroadcastAt` gives the send for each key) |
| PeerModel.SendSpec | lib/peer.js:134-145 | a payload is queued and an `ACK` is not; nothing else but the send log changes; with no clients nothing is sent; a target gets the one send; a falsy target broadcasts in key order; it throws iff there are clients and the target is a non-zero index |
| PeerModel.KeepAliveSpec | lib/peer.js:125-132 | one `ACK` to the client under the key, not queued, or no change when the key has no client |
| PeerModel.ReplaySpec | lib/peer.js:122 | the replay changes only the queue and the send log, and only by appending to them |
| PeerModel.OpenClient | lib/peer.js:97-121 | a new client id under `addr`, appended to the key order, its handler attached, and one `ACK` sent to it |
| PeerModel.ConnectSpec | lib/peer.js:82-123 | a known or blacklisted address is a no-op, checked before readiness; before ready the request is deferred; an address on `myIp` is a no-op; otherwise exactly `addr` is added to the client table, no other client entry changes and nothing is deferred, and readiness, blacklist, `connected` and events never change |
| PeerModel.OnDataSpec | lib/peer.js:98-119 | no handler means no change; a failed decryption blacklists `addr`, drops its client and key, and emits one `warn` and no `data`; a successful one marks `addr` connected and emits one `data`, none for the `ACK` bytes |
| PeerModel.OnDataKeepsInv | lib/peer.js:98-106 | the `data` handler keeps the state invariant |
| PeerModel.DrainSpec | lib/peer.js:58 | the emission of `ready` to deferred connects changes neither readiness, blacklist, `connected` nor events; if nothing throws, no new request is deferred |
| PeerModel.WatchDhtSpec | lib/peer.js:45-59 | the peer becomes ready, `ready` is emitted, and the deferred list is empty unless a connect threw |
| PeerModel.OnDhtReadySpec | lib/peer.js:34-35 | the one-shot subscription leaves the peer ready; when already ready it does nothing; otherwise it emits `ready` |
| PeerModel.Start | lib/peer.js:34-40 | a new peer is ready iff the DHT was, and has emitted `ready` iff so; everything else is the initial state of empty tables |
| PeerObject.Peer.constructor | lib/peer.js:34-40 | the fields equal `Start` and the invariant holds |
| PeerObject.Peer.Create | lib/peer.js:20-41 | a missing required option fails with `Validate`'s message; otherwise a fresh peer whose configuration is the validated one |
| PeerObject.Peer.BroadcastLog | lib/peer.js:142-144 | the `for ... in` loop computes `Broadcast` over the key order |
| PeerObject.Peer.Send | lib/peer.js:134-145 | the fields and outcome equal `SendSpec`, and the invariant is kept |
| PeerObject.Peer.KeepAlive | lib/peer.js:125-130 | the fields equal `KeepAliveSpec` for the key |
| PeerObject.Peer.KeepAliveTick | lib/peer.js:131 | a re-armed tick is `KeepAliveSpec` for the key `"undefined"` |
| PeerObject.Peer.Replay | lib/peer.js:122 | the `forEach` loop over the queue as it was equals `ReplaySpec` |
| PeerObject.Peer.Connect | lib/peer.js:82-123 | the fields and outcome equal `ConnectSpec` |
| PeerObject.Peer.Register | lib/peer.js:97-121 | the client creation, handler and first keepalive equal `OpenClient` |
| PeerObject.Peer.OnData | lib/peer.js:98-119 | the fields equal `OnDataSpec` |
| PeerObject.Peer.OnAnnounce | lib/peer.js:48-53 | the fields and outcome equal `OnAnnounceSpec` |
| PeerObject.Peer.OnTopicPeer | lib/peer.js:55 | the fields and outcome equal `OnTopicPeerSpec` |
| PeerObject.Peer.WatchDht | lib/peer.js:45-59 | the fields and outcome equal `WatchDhtSpec` |
| PeerObject.Peer.Drain | lib/peer.js:58 | the deferred connects run in registration order, equal to `DrainSpec`; after a throw the rest stay registered |
| PeerObject.Peer.OnDhtReady | lib/peer.js:35 | the fields and outcome equal `OnDhtReadySpec` |
| PeerProperties.BroadcastAt | lib/peer.js:142-144 | with every key in the table, the broadcast has one send per key, the k-th to the k-th key's client |
| PeerProperties.SendBroadcastReachesEveryClient | lib/peer.js:137-144 | an untargeted send keeps the earlier log, sends once per key in key order, and reaches every client with the one ciphertext |
| PeerProperties.ReplayAsWritten | lib/peer.js:122 | with clients present: an empty queue replays nothing; the first message is broadcast and re-queued; a second is re-queued, then throws "not a function" |
| PeerProperties.ConnectAsWritten | lib/peer.js:97-122 | a successful connect throws iff two or more messages are queued, re-queues at most two, and sends the `ACK` to the new client, then at most one broadcast of the first message |
| PeerProperties.ReplayAfterOpen | lib/peer.js:121-122 | the replay after registering a client, stated on the state before it |
| PeerProperties.ConnectSends | lib/peer.js:121-122 | the sends of a successful connect, as what it appends to the log |
| PeerProperties.NewClientReceives | lib/peer.js:121-122 | the new client receives the `ACK`, then only the first queued message, if any |
| PeerProperties.EarlierClientsNotNew | lib/peer.js:97 | a broadcast over the clients known before a connect never reaches the new client id |
| PeerProperties.ReplayReachesOldClients | lib/peer.js:122 | with a queue, every client known before the connect receives the first message again |
| PeerProperties.BroadcastCoversEarlier | lib/peer.js:142-144 | a broadcast after a new key joined still reaches every earlier client |
| PeerProperties.DrainSnoc | lib/peer.js:58 | a request registered after others runs, with all its guards, on the state the earlier ones leave; if one of them threw, it stays registered and does not run |
| PeerProperties.DeferredConnectRunsOnReady | lib/peer.js:57-58 | a connect deferred before ready, behind any earlier deferred requests, is at `ready` the same connect, with all its guards, after those requests ran; if one of them threw out of `emit('ready')`, it stays registered and never runs |
| PeerProperties.DrainThrowStrandsLater | lib/peer.js:58 | with two messages queued, `connect(b)` then `connect(a)` before ready: at `ready` the replay for `b` throws "not a function", `b` has a client, `a` has none and stays registered |
| PeerProperties.DeferredTwiceConnectsOnce | lib/peer.js:85-87 | whatever was deferred before, a second deferred connect to the same address changes nothing at `ready` (it only stays registered when an earlier request threw); with nothing deferred before, exactly one client under the address is created, none on the peer's own IP |
| PeerProperties.AnnounceConnectsOnce | lib/peer.js:48-53 | a matching announce opens one client under `addr` with a fresh id and sends it the `ACK`; the same announce again changes nothing |
| PeerModel.OnAnnounceSpec | lib/peer.js:48-53 | the `announce` listener never changes readiness, blacklist, `connected` or events; `AnnounceFilter` states when it connects |
| PeerModel.OnTopicPeerSpec | lib/peer.js:55 | the `peer:<myInfoHash>` listener never changes readiness, blacklist, `connected` or events; `TopicPeerFilter` states when it connects |
| PeerModel.Config.Encrypt | lib/peer.js:147-149 | no contract of its own: `encryptMessage` with the remote public key and the own key pair, uninterpreted |
| PeerModel.Config.Decrypt | lib/peer.js:151-153 | no contract of its own: `decryptMessage` with the same keys, uninterpreted, no value standing for a thrown failure |
| PeerModel.Apply | lib/peer.js:48-145 | no contract of its own: one public call or listened-to event (`connect`, `send`, inbound `data`, `announce`, `peer:<myInfoHash>`, the DHT's `ready`, a keepalive tick); `ApplyKeepsInv` and `ApplyKeepsBlacklist` state its properties |
| PeerModel.Run | lib/peer.js:48-145 | no contract of its own: a trace of such inputs from left to right; `RunKeepsInv`, `BlacklistPermanent` and `DecryptFailureIsPermanent` state its properties |
| PeerProperties.AnnounceFilter | lib/peer.js:48-53 | an announce of another info-hash changes nothing; the client table changes iff the info-hash is the peer's and connect passes its guards |
| PeerProperties.TopicPeerFilter | lib/peer.js:55 | a `peer:<topic>` event changes the client table iff the topic is the peer's own info-hash and connect passes its guards |
| PeerProperties.ConnectKeepsInv | lib/peer.js:82-123 | `connect` keeps the invariant |
| PeerProperties.DrainKeepsInv | lib/peer.js:58 | the deferred connects keep the invariant |
| PeerProperties.ApplyKeepsInv | lib/peer.js:20-145 | every call and event keeps the invariant |
| PeerProperties.RunKeepsInv | lib/peer.js:20-145 | every trace keeps the invariant |
| PeerProperties.ApplyKeepsBlacklist | lib/peer.js:103 | no call or event removes an address from the blacklist |
| PeerProperties.BlacklistPermanent | lib/peer.js:85 | a blacklisted address stays so through any trace, and `connect` to it stays a no-op |
| PeerProperties.DecryptFailureIsPermanent | lib/peer.js:99-106 | after a failed decryption and any later trace, `addr` is blacklisted, has no client, and `connect(addr)` is a no-op |

The state invariant (`PeerModel.Inv`) says:

- the key order lists each key of the client table exactly once;
- every client id is smaller than the next one to be issued;
- every client has a `data` handler;
- no client is blacklisted;
- nothing is wired before ready.

## Left out

- The rudp transport and the `Client` constructor are a foreign library. A client is an opaque fresh id, and a send is an entry in a log.
- The DHT protocol is left out: `announce`, `lookup` and the ten-second announce/lookup loop (`lib/peer.js:59-72`). Only the events the peer listens to are inputs.
- Timers are left out: `setTimeout` in `_keepAlive` and the announce loop. A re-armed keepalive tick is an input, `KeepAliveTick`.
- `destroy` (`lib/peer.js:155-161`) is left out. It deletes only `clients` and `queue`; `connected` and `blacklist` stay. It clears `_monitor`, which is never assigned, and the pending `_announcer` timeout, which a lookup still in flight re-arms (`lib/peer.js:67`, `lib/peer.js:70-71`). Keepalive timeouts (`lib/peer.js:131`) are never stored and so never cancelled. The `data` handlers stay attached, so a message that decrypts still marks `connected` and emits `data` afterwards, while `connect`, `send` and a failed decryption would touch the deleted `clients`.
- The cipher internals are not visible. `encryptMessage`, `decryptMessage`, `toInfoHash` and `getPublic` are uninterpreted functions of their inputs.
- Encryption is a total, deterministic function. A failure thrown by `encryptMessage`, or a random nonce, is not modelled.
- A decryption failure is modelled as `decryptMessage` returning no value. Any exception on that call counts as one.
- Listeners that consumers add to the emitter are left out, along with what they could do while an event is emitted. The model records emitted events in a log. When the DHT is already ready, `ready` is emitted inside the constructor (`lib/peer.js:34`), before any consumer can have subscribed, so no consumer hears it; the model still records it.
- `_debug` logging is left out, with no observable effect on the state.
- `extend(this, options)` copying any further options onto the peer is left out. Only `pub`, `myKey`, `socket`, `dht`, `myIp` and `name` are kept.
- Missing options: `prop in options` accepts an option that is present with the value `undefined`. The model treats absence and `undefined` alike.
- Key lookup is plain map membership: a key is present or not. JavaScript lookups of inherited keys such as `"constructor"` on the plain objects `clients` and `blacklist` are not modelled.
- `for ... in` order is insertion order. JavaScript visits integer-like keys first, but addresses of the form `host:port` are never integer-like.
- The `port` parsed from the address is needed only by the `Client` constructor, which is left out.
- An exception thrown out of a listener is the outcome `Threw` of that step. A trace then goes on from the state reached, as the emitter's caller would.
- The announce listener's third argument (`from`) is ignored, as the code ignores it.
- PeerModel.OnDataSpec: states the key order after a drop by its members only, not that the remaining keys keep their relative order. The class method `PeerObject.Peer.OnData` is tied to the function itself.
