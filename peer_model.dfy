/**
 * The bookkeeping state machine of a zlorp `Peer` (lib/peer.js), written as
 * pure functions over a `State` record. Each function gives the state (and,
 * where the JavaScript can throw, the outcome) after one call or one event.
 * The class in peer_object.dfy is proved against these functions; the lemmas
 * in peer_properties.dfy are about them.
 */
module PeerModel {
  import opened Wrappers

  newtype Byte = x: int | 0 <= x < 256
  type Bytes = seq<Byte>
  /** A transport address `host:port`, the key of the client table. */
  type Addr = string
  type Host = string
  /** A public key in hex, as the peer keeps it in `pub`. */
  type PubKey = string
  type InfoHash = string
  /** Opaque identity of a transport client object (a `rudp.Client`). */
  type ClientId = nat

  datatype KeyPair = KeyPair(secret: Bytes)
  datatype Socket = Socket(port: nat)
  datatype Dht = Dht(ready: bool)

  /**
   * The cryptographic collaborators, left uninterpreted.
   * `decryptMessage` yields None where the JavaScript one throws.
   */
  datatype Crypto = Crypto(
    encryptMessage: (Bytes, PubKey, KeyPair) -> Bytes,
    decryptMessage: (Bytes, PubKey, KeyPair) -> Option<Bytes>,
    toInfoHash: PubKey -> InfoHash,
    getPublic: KeyPair -> PubKey)

  /** The constructor's options object; None is a property that is absent. */
  datatype Options = Options(
    pub: Option<PubKey>,
    myKey: Option<KeyPair>,
    socket: Option<Socket>,
    dht: Option<Dht>,
    myIp: Option<Host>,
    name: Option<string>)

  /** What the constructor derives once and keeps for the peer's lifetime. */
  datatype Config = Config(
    crypto: Crypto,
    pub: PubKey,
    myKey: KeyPair,
    myIp: Option<Host>,
    name: Option<string>,
    port: nat,
    myInfoHash: InfoHash,
    peerInfoHash: InfoHash)
  {
    function Encrypt(msg: Bytes): Bytes {
      crypto.encryptMessage(msg, pub, myKey)
    }

    function Decrypt(msg: Bytes): Option<Bytes> {
      crypto.decryptMessage(msg, pub, myKey)
    }
  }

  /** A validated configuration and whether the DHT was ready at construction. */
  datatype Setup = Setup(cfg: Config, dhtReady: bool)

  // ---------------------------------------------------------------- construction

  const Required: seq<string> := ["pub", "myKey", "socket", "dht"]

  predicate Has(o: Options, prop: string) {
    if prop == "pub" then o.pub.Some?
    else if prop == "myKey" then o.myKey.Some?
    else if prop == "socket" then o.socket.Some?
    else if prop == "dht" then o.dht.Some?
    else if prop == "myIp" then o.myIp.Some?
    else if prop == "name" then o.name.Some?
    else false
  }

  /** The first property of `props`, in order, that `o` lacks. */
  function FirstMissing(o: Options, props: seq<string>): (r: Option<string>)
    ensures r.None? <==> forall i :: 0 <= i < |props| ==> Has(o, props[i])
    ensures r.Some? ==>
      exists i :: 0 <= i < |props| && props[i] == r.value && !Has(o, props[i])
        && forall j :: 0 <= j < i ==> Has(o, props[j])
  {
    if props == [] then None
    else if !Has(o, props[0]) then Some(props[0])
    else
      var rest := FirstMissing(o, props[1..]);
      assert forall i :: 1 <= i < |props| ==> props[i] == props[1..][i - 1];
      rest
  }

  function MissingProperty(prop: string): string {
    "Missing required property: " + prop
  }

  /**
   * The constructor's guard and derivations: the assertion on each required
   * property, then the two info-hashes and the local port.
   */
  function Validate(crypto: Crypto, o: Options): (r: Result<Setup, string>)
    ensures r.Success? <==> o.pub.Some? && o.myKey.Some? && o.socket.Some? && o.dht.Some?
    ensures o.pub.None? ==> r == Failure(MissingProperty("pub"))
    ensures o.pub.Some? && o.myKey.None? ==> r == Failure(MissingProperty("myKey"))
    ensures o.pub.Some? && o.myKey.Some? && o.socket.None? ==> r == Failure(MissingProperty("socket"))
    ensures o.pub.Some? && o.myKey.Some? && o.socket.Some? && o.dht.None? ==> r == Failure(MissingProperty("dht"))
    ensures r.Success? ==>
      var cfg := r.value.cfg;
      && cfg.pub == o.pub.value && cfg.myKey == o.myKey.value
      && cfg.myIp == o.myIp && cfg.name == o.name
      && cfg.port == o.socket.value.port
      && cfg.peerInfoHash == crypto.toInfoHash(o.pub.value)
      && cfg.myInfoHash == crypto.toInfoHash(crypto.getPublic(o.myKey.value))
      && r.value.dhtReady == o.dht.value.ready
  {
    match FirstMissing(o, Required)
    case Some(prop) =>
      assert Required[0] == "pub" && Required[1] == "myKey" && Required[2] == "socket" && Required[3] == "dht";
      Failure(MissingProperty(prop))
    case None =>
      assert Has(o, Required[0]) && Has(o, Required[1]) && Has(o, Required[2]) && Has(o, Required[3]);
      var pub, key := o.pub.value, o.myKey.value;
      var cfg := Config(crypto, pub, key, o.myIp, o.name, o.socket.value.port,
                        crypto.toInfoHash(crypto.getPublic(key)), crypto.toInfoHash(pub));
      Success(Setup(cfg, o.dht.value.ready))
  }

  // ---------------------------------------------------------------- messages, events, state

  /** The heartbeat `ACK`: fifty `_` characters (0x5F). */
  const AckBytes: Bytes := [
    0x5F, 0x5F, 0x5F, 0x5F, 0x5F, 0x5F, 0x5F, 0x5F, 0x5F, 0x5F,
    0x5F, 0x5F, 0x5F, 0x5F, 0x5F, 0x5F, 0x5F, 0x5F, 0x5F, 0x5F,
    0x5F, 0x5F, 0x5F, 0x5F, 0x5F, 0x5F, 0x5F, 0x5F, 0x5F, 0x5F,
    0x5F, 0x5F, 0x5F, 0x5F, 0x5F, 0x5F, 0x5F, 0x5F, 0x5F, 0x5F,
    0x5F, 0x5F, 0x5F, 0x5F, 0x5F, 0x5F, 0x5F, 0x5F, 0x5F, 0x5F]

  /**
   * An outbound message. `Ack` is the module's own `ACK` buffer, which `send`
   * recognises by reference; a payload can equal its bytes and still be a payload.
   */
  datatype Msg = Ack | Payload(bytes: Bytes)

  function MsgBytes(m: Msg): Bytes {
    match m
    case Ack => AckBytes
    case Payload(b) => b
  }

  /**
   * The second argument of `send`: absent, a client object, or the element
   * index that `Array.prototype.forEach` passes when the queue is replayed.
   */
  datatype SendArg = NoTarget | ToClient(id: ClientId) | ToIndex(index: nat)

  /** How a call ends: normally, or with an exception thrown out of it. */
  datatype Outcome = Returned | Threw(message: string)

  /** The TypeError of calling `.send` on a number. */
  const NotAFunction: string := "client.send is not a function"

  /** The events the peer emits, in emission order. */
  datatype Event = Ready | Data(payload: Bytes) | Warn(text: string, raw: Bytes)

  function WarnText(addr: Addr): string {
    "Unable to decrypt message, blacklisting " + addr
  }

  /** One `client.send(ciphertext)` on the transport. */
  datatype Sent = Sent(client: ClientId, data: Bytes)

  /**
   * The peer's mutable state. `order` is the insertion order of the keys of
   * `clients` (the order `for ... in` visits them); `deferred` holds the
   * `once('ready')` connect requests still registered; `wired` holds every
   * address whose client has had its `data` handler attached (the handler
   * stays attached after the client leaves `clients`); `nextId` is the
   * identity the next client object gets; `events` and `sent` are logs.
   */
  datatype State = State(
    ready: bool,
    clients: map<Addr, ClientId>,
    order: seq<Addr>,
    connected: set<Addr>,
    blacklist: set<Addr>,
    queue: seq<Bytes>,
    deferred: seq<Addr>,
    wired: set<Addr>,
    nextId: nat,
    events: seq<Event>,
    sent: seq<Sent>)

  datatype Step = Step(state: State, outcome: Outcome)

  function Initial(): State {
    State(false, map[], [], {}, {}, [], [], {}, 0, [], [])
  }

  ghost predicate Distinct(xs: seq<Addr>) {
    forall i, j :: 0 <= i < j < |xs| ==> xs[i] != xs[j]
  }

  /**
   * What every reachable state satisfies: `order` lists each client address
   * once, client identities are below `nextId`, every client has its handler,
   * no blacklisted address has a client, and nothing is wired before ready.
   */
  ghost predicate Inv(s: State) {
    && Distinct(s.order)
    && (forall a :: a in s.order <==> a in s.clients)
    && (forall a :: a in s.clients ==> s.clients[a] < s.nextId)
    && s.clients.Keys <= s.wired
    && s.clients.Keys !! s.blacklist
    && (!s.ready ==> s.wired == {})
  }

  // ---------------------------------------------------------------- helpers

  /** `addr.split(':')[0]`: the text before the first colon. */
  function HostOf(addr: Addr): (host: Host)
    ensures host <= addr
    ensures ':' !in host
    ensures |host| == |addr| || addr[|host|] == ':'
  {
    if addr == [] || addr[0] == ':' then [] else [addr[0]] + HostOf(addr[1..])
  }

  /** `order` without `x`: the key order after `delete clients[x]`. */
  function Without(order: seq<Addr>, x: Addr): (r: seq<Addr>)
    ensures forall a :: a in r <==> a in order && a != x
    ensures Distinct(order) ==> Distinct(r)
    ensures |r| <= |order|
  {
    if order == [] then []
    else
      var rest := Without(order[1..], x);
      if order[0] == x then rest
      else
        assert Distinct(order) ==> order[0] !in order[1..];
        [order[0]] + rest
  }

  /** The sends of one broadcast: one per address of `order` that has a client. */
  function Broadcast(order: seq<Addr>, clients: map<Addr, ClientId>, data: Bytes): (r: seq<Sent>)
    ensures forall k :: 0 <= k < |r| ==> r[k].data == data
    ensures |r| <= |order|
  {
    if order == [] then []
    else
      var last := order[|order| - 1];
      Broadcast(order[..|order| - 1], clients, data)
        + (if last in clients then [Sent(clients[last], data)] else [])
  }

  // ---------------------------------------------------------------- operations

  /**
   * `send(msg, arg)`: a message other than the `ACK` buffer is queued first;
   * with no clients nothing else happens; otherwise it is encrypted once and
   * sent to the client given, or to every client when the argument is falsy.
   * A non-zero number as the argument throws.
   */
  function SendSpec(c: Config, s: State, msg: Msg, arg: SendArg): (r: Step)
    ensures r.state.queue == if msg.Payload? then s.queue + [msg.bytes] else s.queue
    ensures r.state.(queue := s.queue, sent := s.sent) == s
    ensures r.outcome.Threw? <==> s.clients != map[] && arg.ToIndex? && arg.index != 0
    ensures r.outcome.Threw? ==> r.outcome.message == NotAFunction && r.state.sent == s.sent
    ensures s.clients == map[] ==> r.state.sent == s.sent
    ensures s.clients != map[] && arg.ToClient? ==>
      r.state.sent == s.sent + [Sent(arg.id, c.Encrypt(MsgBytes(msg)))]
    ensures s.clients != map[] && (arg.NoTarget? || arg == ToIndex(0)) ==>
      r.state.sent == s.sent + Broadcast(s.order, s.clients, c.Encrypt(MsgBytes(msg)))
  {
    var queued := if msg.Payload? then s.(queue := s.queue + [msg.bytes]) else s;
    if queued.clients == map[] then Step(queued, Returned)
    else
      var data := c.Encrypt(MsgBytes(msg));
      match arg
      case ToClient(id) => Step(queued.(sent := queued.sent + [Sent(id, data)]), Returned)
      case ToIndex(i) =>
        if i != 0 then Step(queued, Threw(NotAFunction))
        else Step(queued.(sent := queued.sent + Broadcast(queued.order, queued.clients, data)), Returned)
      case NoTarget => Step(queued.(sent := queued.sent + Broadcast(queued.order, queued.clients, data)), Returned)
  }

  /** The key a re-scheduled keepalive tick looks up: `addr` was not bound. */
  const UndefinedKey: Addr := "undefined"

  /**
   * `_keepAlive(key)`: the `ACK` goes to the client under `key`, and only to
   * it, and is never queued; without such a client nothing happens.
   */
  function KeepAliveSpec(c: Config, s: State, key: Addr): (r: State)
    ensures key !in s.clients ==> r == s
    ensures key in s.clients ==> r == s.(sent := s.sent + [Sent(s.clients[key], c.Encrypt(AckBytes))])
  {
    if key !in s.clients then s
    else SendSpec(c, s, Ack, ToClient(s.clients[key])).state
  }

  /**
   * `snapshot.forEach(this.send, this)` from index `k` on: element `j` is
   * sent with `j` as the target argument; the first exception ends the loop.
   */
  function ReplaySpec(c: Config, s: State, snapshot: seq<Bytes>, k: nat): (r: Step)
    ensures r.state.(queue := s.queue, sent := s.sent) == s
    ensures |s.queue| <= |r.state.queue| && r.state.queue[..|s.queue|] == s.queue
    ensures |s.sent| <= |r.state.sent| && r.state.sent[..|s.sent|] == s.sent
    decreases |snapshot| - k
  {
    if k >= |snapshot| then Step(s, Returned)
    else
      var st := SendSpec(c, s, Payload(snapshot[k]), ToIndex(k));
      if st.outcome.Threw? then st
      else
        var r := ReplaySpec(c, st.state, snapshot, k + 1);
        assert r.state.queue[..|s.queue|] == r.state.queue[..|st.state.queue|][..|s.queue|];
        assert r.state.sent[..|s.sent|] == r.state.sent[..|st.state.sent|][..|s.sent|];
        r
  }

  /**
   * A new client registered under `addr` with its `data` handler attached,
   * after its first keepalive: one `ACK` to it and nothing queued.
   */
  function OpenClient(c: Config, s: State, addr: Addr): (r: State)
    requires addr !in s.clients
    ensures r == s.(clients := s.clients[addr := s.nextId], order := s.order + [addr],
                    wired := s.wired + {addr}, nextId := s.nextId + 1,
                    sent := s.sent + [Sent(s.nextId, c.Encrypt(AckBytes))])
  {
    var added := s.(clients := s.clients[addr := s.nextId], order := s.order + [addr],
                    wired := s.wired + {addr}, nextId := s.nextId + 1);
    KeepAliveSpec(c, added, addr)
  }

  /** Whether `connect(addr)` gets past every guard and creates a client. */
  predicate Creates(c: Config, s: State, addr: Addr) {
    && addr !in s.clients
    && addr !in s.blacklist
    && s.ready
    && c.myIp != Some(HostOf(addr))
  }

  /**
   * `connect(addr)`: a known or blacklisted address is ignored (before the
   * readiness check); before ready the request is deferred; an address on the
   * peer's own IP is ignored; otherwise a fresh client is registered under
   * `addr`, gets its first keepalive, and the queue is replayed.
   */
  function ConnectSpec(c: Config, s: State, addr: Addr): (r: Step)
    ensures addr in s.clients || addr in s.blacklist ==> r == Step(s, Returned)
    ensures addr !in s.clients && addr !in s.blacklist && !s.ready ==>
      r == Step(s.(deferred := s.deferred + [addr]), Returned)
    ensures addr !in s.clients && addr !in s.blacklist && s.ready && c.myIp == Some(HostOf(addr)) ==>
      r == Step(s, Returned)
    ensures Creates(c, s, addr) ==>
      && r.state.clients == s.clients[addr := s.nextId]
      && r.state.order == s.order + [addr]
      && r.state.wired == s.wired + {addr}
      && r.state.nextId == s.nextId + 1
      && r.state.deferred == s.deferred
    ensures r.state.ready == s.ready && r.state.blacklist == s.blacklist
    ensures r.state.connected == s.connected && r.state.events == s.events
  {
    if addr in s.clients || addr in s.blacklist then Step(s, Returned)
    else if !s.ready then Step(s.(deferred := s.deferred + [addr]), Returned)
    else if c.myIp == Some(HostOf(addr)) then Step(s, Returned)
    else
      ReplaySpec(c, OpenClient(c, s, addr), s.queue, 0)
  }

  /**
   * The `data` handler of the client created for `addr`. A message that does
   * not decrypt blacklists `addr`, drops its client and emits one `warn`
   * with the raw bytes; one that does marks `addr` connected and is emitted
   * as `data` unless it equals the `ACK` bytes. An address no client was ever
   * created for has no handler.
   */
  function OnDataSpec(c: Config, s: State, addr: Addr, raw: Bytes): (r: State)
    ensures addr !in s.wired ==> r == s
    ensures addr in s.wired && c.Decrypt(raw).None? ==>
      && r.blacklist == s.blacklist + {addr}
      && r.clients == s.clients - {addr}
      && (forall a :: a in r.order <==> a in s.order && a != addr)
      && r.events == s.events + [Warn(WarnText(addr), raw)]
      && r.(blacklist := s.blacklist, clients := s.clients, order := s.order, events := s.events) == s
    ensures addr in s.wired && c.Decrypt(raw).Some? ==>
      && r.connected == s.connected + {addr}
      && r.events == s.events + (if c.Decrypt(raw).value == AckBytes then [] else [Data(c.Decrypt(raw).value)])
      && r.(connected := s.connected, events := s.events) == s
  {
    if addr !in s.wired then s
    else
      match c.Decrypt(raw)
      case None =>
        s.(blacklist := s.blacklist + {addr}, clients := s.clients - {addr},
           order := Without(s.order, addr), events := s.events + [Warn(WarnText(addr), raw)])
      case Some(msg) =>
        var marked := if addr in s.connected then s else s.(connected := s.connected + {addr});
        if msg == AckBytes then marked else marked.(events := marked.events + [Data(msg)])
  }

  /** The `data` handler keeps the invariant: a dropped client leaves `order` with its key. */
  lemma OnDataKeepsInv(c: Config, s: State, addr: Addr, raw: Bytes)
    requires Inv(s)
    ensures Inv(OnDataSpec(c, s, addr, raw))
  {
    if addr in s.wired && c.Decrypt(raw).None? {
      var r := OnDataSpec(c, s, addr, raw);
      assert r.order == Without(s.order, addr) && r.clients == s.clients - {addr};
    }
  }

  /** The DHT's `announce` event, which the peer listens to from ready on. */
  function OnAnnounceSpec(c: Config, s: State, addr: Addr, infoHash: InfoHash): (r: Step)
    ensures r.state.ready == s.ready && r.state.blacklist == s.blacklist
    ensures r.state.connected == s.connected && r.state.events == s.events
  {
    if s.ready && infoHash == c.peerInfoHash then ConnectSpec(c, s, addr) else Step(s, Returned)
  }

  /** The DHT's `peer:<topic>` event; the peer listens on its own info-hash from ready on. */
  function OnTopicPeerSpec(c: Config, s: State, topic: InfoHash, addr: Addr): (r: Step)
    ensures r.state.ready == s.ready && r.state.blacklist == s.blacklist
    ensures r.state.connected == s.connected && r.state.events == s.events
  {
    if s.ready && topic == c.myInfoHash then ConnectSpec(c, s, addr) else Step(s, Returned)
  }

  /**
   * The deferred connects run in registration order. An exception ends the
   * emission; the requests after it stay registered.
   */
  function DrainSpec(c: Config, s: State, pending: seq<Addr>): (r: Step)
    ensures r.state.ready == s.ready && r.state.blacklist == s.blacklist
    ensures r.state.events == s.events && r.state.connected == s.connected
    ensures s.ready && r.outcome.Returned? ==> r.state.deferred == s.deferred
    decreases |pending|
  {
    if pending == [] then Step(s, Returned)
    else
      var st := ConnectSpec(c, s, pending[0]);
      if st.outcome.Threw? then Step(st.state.(deferred := st.state.deferred + pending[1..]), st.outcome)
      else DrainSpec(c, st.state, pending[1..])
  }

  /**
   * `_watchDHT`: the peer becomes ready, emits `ready`, and the deferred
   * connect requests registered with `once('ready')` run.
   */
  function WatchDhtSpec(c: Config, s: State): (r: Step)
    ensures r.state.ready
    ensures r.state.events == s.events + [Ready]
    ensures r.state.blacklist == s.blacklist && r.state.connected == s.connected
    ensures r.outcome.Returned? ==> r.state.deferred == []
  {
    DrainSpec(c, s.(ready := true, events := s.events + [Ready], deferred := []), s.deferred)
  }

  /** The DHT's `ready` event: the one-shot subscription runs `_watchDHT` once. */
  function OnDhtReadySpec(c: Config, s: State): (r: Step)
    ensures r.state.ready && r.state.blacklist == s.blacklist
    ensures s.ready ==> r == Step(s, Returned)
    ensures !s.ready ==> r.state.events == s.events + [Ready]
  {
    if s.ready then Step(s, Returned) else WatchDhtSpec(c, s)
  }

  /** The state right after construction. */
  function Start(c: Config, dhtReady: bool): (r: State)
    ensures r.ready == dhtReady
    ensures r.events == if dhtReady then [Ready] else []
    ensures r.(ready := false, events := []) == Initial()
  {
    if dhtReady then WatchDhtSpec(c, Initial()).state else Initial()
  }

  // ---------------------------------------------------------------- traces

  /** Everything that can happen to a peer: a call on it or an event it listens to. */
  datatype Input =
    | ConnectCall(addr: Addr)
    | SendCall(msg: Bytes, target: Option<ClientId>)
    | DataIn(addr: Addr, raw: Bytes)
    | AnnounceIn(addr: Addr, infoHash: InfoHash)
    | TopicPeerIn(topic: InfoHash, addr: Addr)
    | DhtReadyIn
    | KeepAliveTick

  function Apply(c: Config, s: State, i: Input): State {
    match i
    case ConnectCall(addr) => ConnectSpec(c, s, addr).state
    case SendCall(msg, target) =>
      SendSpec(c, s, Payload(msg), if target.Some? then ToClient(target.value) else NoTarget).state
    case DataIn(addr, raw) => OnDataSpec(c, s, addr, raw)
    case AnnounceIn(addr, h) => OnAnnounceSpec(c, s, addr, h).state
    case TopicPeerIn(topic, addr) => OnTopicPeerSpec(c, s, topic, addr).state
    case DhtReadyIn => OnDhtReadySpec(c, s).state
    case KeepAliveTick => KeepAliveSpec(c, s, UndefinedKey)
  }

  function Run(c: Config, s: State, inputs: seq<Input>): State
    decreases |inputs|
  {
    if inputs == [] then s else Run(c, Apply(c, s, inputs[0]), inputs[1..])
  }
}
