/**
 * The `Peer` object of lib/peer.js: its fields are updated in place by its
 * methods and by the event handlers it installs. Each method is proved to
 * leave the fields as the matching function of PeerModel says.
 */
module PeerObject {
  import opened Wrappers
  import opened PeerModel

  class Peer {
    const cfg: Config

    var ready: bool
    var clients: map<Addr, ClientId>
    /** Insertion order of the keys of `clients`. */
    var order: seq<Addr>
    var connected: set<Addr>
    var blacklist: set<Addr>
    var queue: seq<Bytes>
    /** Connect requests registered with `once('ready')`. */
    var deferred: seq<Addr>
    /** Addresses whose client has a `data` handler attached. */
    var wired: set<Addr>
    /** Identity of the next `rudp.Client` object. */
    var nextId: nat
    /** Emitted events. */
    var events: seq<Event>
    /** Transport sends. */
    var sent: seq<Sent>

    /** The fields as a PeerModel state. */
    function Snapshot(): State
      reads this
    {
      PeerModel.State(ready, clients, order, connected, blacklist, queue, deferred, wired, nextId, events, sent)
    }

    ghost predicate Valid()
      reads this
    {
      Inv(Snapshot())
    }

    /**
     * The constructor once the options are checked: empty tables, and
     * `_watchDHT` at once when the DHT is already ready.
     */
    constructor (c: Config, dhtReady: bool)
      ensures Valid() && cfg == c
      ensures Snapshot() == Start(c, dhtReady)
    {
      cfg := c;
      ready, clients, order, connected, blacklist := false, map[], [], {}, {};
      queue, deferred, wired, nextId, events, sent := [], [], {}, 0, [], [];
      new;
      if dhtReady {
        var _ := WatchDht();
      }
    }

    /** `new Peer(options)`: the required-property assertions, then construction. */
    static method Create(crypto: Crypto, options: Options) returns (r: Result<Peer, string>)
      ensures Validate(crypto, options).Failure? ==> r == Failure(Validate(crypto, options).error)
      ensures Validate(crypto, options).Success? ==>
        && r.Success? && fresh(r.value) && r.value.Valid()
        && r.value.cfg == Validate(crypto, options).value.cfg
        && r.value.Snapshot() == Start(r.value.cfg, Validate(crypto, options).value.dhtReady)
    {
      match Validate(crypto, options)
      case Failure(e) => r := Failure(e);
      case Success(setup) =>
        var p := new Peer(setup.cfg, setup.dhtReady);
        r := Success(p);
    }

    /** The `for (var addr in this.clients)` loop of `send`: one send per client, in key order. */
    static method BroadcastLog(keys: seq<Addr>, table: map<Addr, ClientId>, data: Bytes) returns (log: seq<Sent>)
      requires forall a :: a in keys ==> a in table
      ensures log == Broadcast(keys, table, data)
    {
      log := [];
      var i := 0;
      while i < |keys|
        invariant 0 <= i <= |keys|
        invariant log == Broadcast(keys[..i], table, data)
      {
        assert keys[..i + 1][..i] == keys[..i];
        log := log + [Sent(table[keys[i]], data)];
        i := i + 1;
      }
      assert keys[..i] == keys;
    }

    /** `send(msg, arg)`, with the broadcast as the `for ... in` loop over the clients. */
    method Send(msg: Msg, arg: SendArg) returns (outcome: Outcome)
      requires Valid()
      modifies this
      ensures Valid()
      ensures Step(Snapshot(), outcome) == SendSpec(cfg, old(Snapshot()), msg, arg)
    {
      if msg.Payload? {
        queue := queue + [msg.bytes];
      }
      if clients == map[] {
        return Returned;
      }
      var data := cfg.Encrypt(MsgBytes(msg));
      if arg.ToClient? {
        sent := sent + [Sent(arg.id, data)];
        return Returned;
      }
      if arg.ToIndex? && arg.index != 0 {
        return Threw(NotAFunction);
      }
      var fanOut := BroadcastLog(order, clients, data);
      sent := sent + fanOut;
      return Returned;
    }

    /** `_keepAlive(key)`: one `ACK` to the client under `key`, if there is one. */
    method KeepAlive(key: Addr)
      requires Valid()
      modifies this
      ensures Valid()
      ensures Snapshot() == KeepAliveSpec(cfg, old(Snapshot()), key)
    {
      if key !in clients {
        return;
      }
      var _ := Send(Ack, ToClient(clients[key]));
    }

    /** A re-scheduled keepalive tick, which calls `_keepAlive` with no address. */
    method KeepAliveTick()
      requires Valid()
      modifies this
      ensures Valid()
      ensures Snapshot() == KeepAliveSpec(cfg, old(Snapshot()), UndefinedKey)
    {
      KeepAlive(UndefinedKey);
    }

    /** `this.queue.forEach(this.send, this)`: over the queue as it was, index as target. */
    method Replay() returns (outcome: Outcome)
      requires Valid()
      modifies this
      ensures Valid()
      ensures Step(Snapshot(), outcome) == ReplaySpec(cfg, old(Snapshot()), old(queue), 0)
    {
      var snapshot := queue;
      var k := 0;
      while k < |snapshot|
        invariant 0 <= k <= |snapshot|
        invariant Valid()
        invariant ReplaySpec(cfg, Snapshot(), snapshot, k) == ReplaySpec(cfg, old(Snapshot()), snapshot, 0)
      {
        var o := Send(Payload(snapshot[k]), ToIndex(k));
        if o.Threw? {
          return o;
        }
        k := k + 1;
      }
      return Returned;
    }

    /** `connect(addr)`. */
    method Connect(addr: Addr) returns (outcome: Outcome)
      requires Valid()
      modifies this
      ensures Valid()
      ensures Step(Snapshot(), outcome) == ConnectSpec(cfg, old(Snapshot()), addr)
    {
      if addr in clients || addr in blacklist {
        return Returned;
      }
      if !ready {
        deferred := deferred + [addr];
        return Returned;
      }
      var host := HostOf(addr);
      if cfg.myIp == Some(host) {
        return Returned;
      }
      Register(addr);
      outcome := Replay();
    }

    /** `this.clients[addr] = new rudp.Client(...)`, the `data` handler, and `_keepAlive(addr)`. */
    method Register(addr: Addr)
      requires Valid() && ready && addr !in clients && addr !in blacklist
      modifies this
      ensures Valid()
      ensures Snapshot() == OpenClient(cfg, old(Snapshot()), addr)
    {
      assert addr !in order;
      clients := clients[addr := nextId];
      order := order + [addr];
      wired := wired + {addr};
      nextId := nextId + 1;
      KeepAlive(addr);
    }

    /** The `data` handler attached to the client of `addr`. */
    method OnData(addr: Addr, raw: Bytes)
      requires Valid()
      modifies this
      ensures Valid()
      ensures Snapshot() == OnDataSpec(cfg, old(Snapshot()), addr, raw)
    {
      if addr !in wired {
        return;
      }
      ghost var s := Snapshot();
      OnDataKeepsInv(cfg, s, addr, raw);
      var plain := cfg.Decrypt(raw);
      if plain.None? {
        blacklist := blacklist + {addr};
        clients := clients - {addr};
        order := Without(order, addr);
        events := events + [Warn(WarnText(addr), raw)];
        return;
      }
      if addr !in connected {
        connected := connected + {addr};
      }
      assert Snapshot() == s.(connected := s.connected + {addr});
      if plain.value == AckBytes {
        return;
      }
      events := events + [Data(plain.value)];
    }

    /** The `announce` listener that `_watchDHT` installs. */
    method OnAnnounce(addr: Addr, infoHash: InfoHash) returns (outcome: Outcome)
      requires Valid()
      modifies this
      ensures Valid()
      ensures Step(Snapshot(), outcome) == OnAnnounceSpec(cfg, old(Snapshot()), addr, infoHash)
    {
      outcome := Returned;
      if ready && infoHash == cfg.peerInfoHash {
        outcome := Connect(addr);
      }
    }

    /** The `peer:<myInfoHash>` listener that `_watchDHT` installs. */
    method OnTopicPeer(topic: InfoHash, addr: Addr) returns (outcome: Outcome)
      requires Valid()
      modifies this
      ensures Valid()
      ensures Step(Snapshot(), outcome) == OnTopicPeerSpec(cfg, old(Snapshot()), topic, addr)
    {
      outcome := Returned;
      if ready && topic == cfg.myInfoHash {
        outcome := Connect(addr);
      }
    }

    /** `_watchDHT`: ready, `emit('ready')`, and the deferred connects in order. */
    method WatchDht() returns (outcome: Outcome)
      requires Valid()
      modifies this
      ensures Valid()
      ensures Step(Snapshot(), outcome) == WatchDhtSpec(cfg, old(Snapshot()))
    {
      ready := true;
      events := events + [Ready];
      var pending := deferred;
      deferred := [];
      outcome := Drain(pending);
    }

    /** The emission of `ready` to the deferred connect requests, in registration order. */
    method Drain(pending: seq<Addr>) returns (outcome: Outcome)
      requires Valid() && ready
      modifies this
      ensures Valid()
      ensures Step(Snapshot(), outcome) == DrainSpec(cfg, old(Snapshot()), pending)
    {
      var i := 0;
      while i < |pending|
        invariant 0 <= i <= |pending|
        invariant Valid() && ready
        invariant DrainSpec(cfg, Snapshot(), pending[i..]) == DrainSpec(cfg, old(Snapshot()), pending)
      {
        ghost var before := Snapshot();
        assert pending[i..][0] == pending[i] && pending[i..][1..] == pending[i + 1..];
        var o := Connect(pending[i]);
        if o.Threw? {
          deferred := deferred + pending[i + 1..];
          assert DrainSpec(cfg, before, pending[i..]) == Step(Snapshot(), o);
          return o;
        }
        assert DrainSpec(cfg, before, pending[i..]) == DrainSpec(cfg, Snapshot(), pending[i + 1..]);
        i := i + 1;
      }
      assert pending[i..] == [];
      return Returned;
    }

    /** The DHT's `ready` event, to which the constructor subscribed once. */
    method OnDhtReady() returns (outcome: Outcome)
      requires Valid()
      modifies this
      ensures Valid()
      ensures Step(Snapshot(), outcome) == OnDhtReadySpec(cfg, old(Snapshot()))
    {
      outcome := Returned;
      if !ready {
        outcome := WatchDht();
      }
    }
  }
}
