/**
 * Properties of the peer's state machine: what a broadcast reaches, what
 * connecting really delivers (the queue replay as written), deferred
 * connects, blacklist permanence, and the invariant every input keeps.
 */
module PeerProperties {
  import opened Wrappers
  import opened PeerModel

  /** The ciphertexts the client `id` is sent, in order. */
  function ReceivedBy(log: seq<Sent>, id: ClientId): (r: seq<Bytes>)
    ensures |r| <= |log|
  {
    if log == [] then []
    else (if log[0].client == id then [log[0].data] else []) + ReceivedBy(log[1..], id)
  }

  lemma {:induction false} ReceivedByAppend(xs: seq<Sent>, ys: seq<Sent>, id: ClientId)
    ensures ReceivedBy(xs + ys, id) == ReceivedBy(xs, id) + ReceivedBy(ys, id)
  {
    if xs != [] {
      assert (xs + ys)[1..] == xs[1..] + ys;
      ReceivedByAppend(xs[1..], ys, id);
    } else {
      assert xs + ys == ys;
    }
  }

  lemma {:induction false} ReceivedByNone(log: seq<Sent>, id: ClientId)
    requires forall k :: 0 <= k < |log| ==> log[k].client != id
    ensures ReceivedBy(log, id) == []
  {
    if log != [] {
      ReceivedByNone(log[1..], id);
    }
  }

  // ---------------------------------------------------------------- broadcast

  /** A broadcast over keys that all have clients sends once per key, in key order. */
  lemma {:induction false} BroadcastAt(order: seq<Addr>, clients: map<Addr, ClientId>, data: Bytes)
    requires forall a :: a in order ==> a in clients
    ensures |Broadcast(order, clients, data)| == |order|
    ensures forall i :: 0 <= i < |order| ==> Broadcast(order, clients, data)[i] == Sent(clients[order[i]], data)
  {
    if order != [] {
      var init := order[..|order| - 1];
      assert forall a :: a in init ==> a in order;
      BroadcastAt(init, clients, data);
      assert forall i :: 0 <= i < |init| ==> order[i] == init[i];
    }
  }

  /**
   * `send` without a target: every client receives the one ciphertext, once
   * per address in key order, and nobody else receives anything.
   */
  lemma SendBroadcastReachesEveryClient(c: Config, s: State, msg: Msg)
    requires Inv(s) && s.clients != map[]
    ensures var r := SendSpec(c, s, msg, NoTarget).state;
      var added := r.sent[|s.sent|..];
      && |r.sent| == |s.sent| + |s.order|
      && r.sent[..|s.sent|] == s.sent
      && (forall i :: 0 <= i < |added| ==> added[i] == Sent(s.clients[s.order[i]], c.Encrypt(MsgBytes(msg))))
      && (forall a :: a in s.clients ==>
            exists i :: 0 <= i < |added| && s.order[i] == a && added[i] == Sent(s.clients[a], c.Encrypt(MsgBytes(msg))))
  {
    var data := c.Encrypt(MsgBytes(msg));
    BroadcastAt(s.order, s.clients, data);
    var r := SendSpec(c, s, msg, NoTarget).state;
    AfterPrefix(s.sent, Broadcast(s.order, s.clients, data));
    assert r.sent[|s.sent|..] == Broadcast(s.order, s.clients, data);
    forall a | a in s.clients
      ensures exists i :: 0 <= i < |s.order| && s.order[i] == a
    {
      assert a in s.order;
    }
  }

  // ---------------------------------------------------------------- replay and connect, as written

  /**
   * `queue.forEach(this.send, this)` with at least one client: index 0 is
   * falsy, so the first message is broadcast; index 1 is a number whose
   * `send` is not a function, so the loop throws there. Each message
   * reached is pushed onto the queue again.
   */
  lemma ReplayAsWritten(c: Config, s: State, snapshot: seq<Bytes>)
    requires s.clients != map[]
    ensures var r := ReplaySpec(c, s, snapshot, 0);
      var reached := snapshot[..if |snapshot| < 2 then |snapshot| else 2];
      && (r.outcome.Threw? <==> |snapshot| >= 2)
      && (r.outcome.Threw? ==> r.outcome == Threw(NotAFunction))
      && r.state == s.(queue := s.queue + reached,
                       sent := s.sent + (if |snapshot| == 0 then [] else Broadcast(s.order, s.clients, c.Encrypt(snapshot[0]))))
  {
    if |snapshot| == 0 {
      assert s.queue + snapshot[..0] == s.queue;
    } else {
      var first := SendSpec(c, s, Payload(snapshot[0]), ToIndex(0));
      assert first.outcome == Returned;
      assert ReplaySpec(c, s, snapshot, 0) == ReplaySpec(c, first.state, snapshot, 1);
      if |snapshot| == 1 {
        assert snapshot[..1] == [snapshot[0]];
      } else {
        var second := SendSpec(c, first.state, Payload(snapshot[1]), ToIndex(1));
        assert second.outcome == Threw(NotAFunction);
        assert ReplaySpec(c, first.state, snapshot, 1) == second;
        assert snapshot[..2] == [snapshot[0], snapshot[1]];
        assert first.state.queue + [snapshot[1]] == s.queue + [snapshot[0], snapshot[1]];
      }
    }
  }

  /**
   * What a successful `connect(addr)` does: one `ACK` to the new client,
   * then the first queued message broadcast to all clients (old ones
   * included); it throws once two or more messages are queued, and the
   * queue grows by the messages the replay reached.
   */
  lemma ConnectAsWritten(c: Config, s: State, addr: Addr)
    requires Creates(c, s, addr)
    ensures var r := ConnectSpec(c, s, addr);
      var q := s.queue;
      && (r.outcome.Threw? <==> |q| >= 2)
      && (r.outcome.Threw? ==> r.outcome == Threw(NotAFunction))
      && r.state.queue == q + q[..if |q| < 2 then |q| else 2]
      && r.state.sent == s.sent + ([Sent(s.nextId, c.Encrypt(AckBytes))]
           + (if |q| == 0 then [] else Broadcast(s.order + [addr], s.clients[addr := s.nextId], c.Encrypt(q[0]))))
  {
    ReplayAfterOpen(c, s, addr);
    assert ConnectSpec(c, s, addr) == ReplaySpec(c, OpenClient(c, s, addr), s.queue, 0);
  }

  /** The replay that follows the registration of a new client. */
  lemma ReplayAfterOpen(c: Config, s: State, addr: Addr)
    requires addr !in s.clients
    ensures var r := ReplaySpec(c, OpenClient(c, s, addr), s.queue, 0);
      var q := s.queue;
      && (r.outcome.Threw? <==> |q| >= 2)
      && (r.outcome.Threw? ==> r.outcome == Threw(NotAFunction))
      && r.state.queue == q + q[..if |q| < 2 then |q| else 2]
      && r.state.sent == s.sent + ([Sent(s.nextId, c.Encrypt(AckBytes))]
           + (if |q| == 0 then [] else Broadcast(s.order + [addr], s.clients[addr := s.nextId], c.Encrypt(q[0]))))
  {
    ReplayFromOpened(c, s, OpenClient(c, s, addr), addr);
  }

  /** ReplayAfterOpen, about a state known only by its fields. */
  lemma ReplayFromOpened(c: Config, s: State, t: State, addr: Addr)
    requires t == s.(clients := s.clients[addr := s.nextId], order := s.order + [addr],
                     wired := s.wired + {addr}, nextId := s.nextId + 1,
                     sent := s.sent + [Sent(s.nextId, c.Encrypt(AckBytes))])
    ensures var r := ReplaySpec(c, t, s.queue, 0);
      var q := s.queue;
      && (r.outcome.Threw? <==> |q| >= 2)
      && (r.outcome.Threw? ==> r.outcome == Threw(NotAFunction))
      && r.state.queue == q + q[..if |q| < 2 then |q| else 2]
      && r.state.sent == s.sent + ([Sent(s.nextId, c.Encrypt(AckBytes))]
           + (if |q| == 0 then [] else Broadcast(s.order + [addr], s.clients[addr := s.nextId], c.Encrypt(q[0]))))
  {
    assert addr in t.clients;
    ReplayAsWritten(c, t, s.queue);
    var q := s.queue;
    var fanOut := if |q| == 0 then [] else Broadcast(t.order, t.clients, c.Encrypt(q[0]));
    assert ReplaySpec(c, t, q, 0).state.sent == t.sent + fanOut;
    Assoc(s.sent, [Sent(s.nextId, c.Encrypt(AckBytes))], fanOut);
  }

  /** Proof step, not a property of the peer: concatenation is associative. */
  lemma Assoc<T>(xs: seq<T>, ys: seq<T>, zs: seq<T>)
    ensures (xs + ys) + zs == xs + (ys + zs)
  {
  }

  /** The transport sends of a successful `connect`, relative to the log before it. */
  lemma ConnectSends(c: Config, s: State, addr: Addr)
    requires Creates(c, s, addr)
    ensures var r := ConnectSpec(c, s, addr).state;
      && |s.sent| <= |r.sent|
      && r.sent[|s.sent|..] == [Sent(s.nextId, c.Encrypt(AckBytes))]
           + (if |s.queue| == 0 then [] else Broadcast(s.order + [addr], s.clients[addr := s.nextId], c.Encrypt(s.queue[0])))
  {
    ConnectAsWritten(c, s, addr);
    var tail := [Sent(s.nextId, c.Encrypt(AckBytes))]
      + (if |s.queue| == 0 then [] else Broadcast(s.order + [addr], s.clients[addr := s.nextId], c.Encrypt(s.queue[0])));
    AfterPrefix(s.sent, tail);
  }

  /** Proof step, not a property of the peer: dropping a prefix of a concatenation leaves the rest. */
  lemma AfterPrefix<T>(xs: seq<T>, ys: seq<T>)
    ensures |xs| <= |xs + ys| && (xs + ys)[|xs|..] == ys
  {
  }

  /**
   * What the new client is sent by `connect`: the `ACK`, then at most the
   * first queued message. With three messages queued it gets one of them,
   * not the three in order.
   */
  lemma NewClientReceives(c: Config, s: State, addr: Addr)
    requires Inv(s) && Creates(c, s, addr)
    ensures var r := ConnectSpec(c, s, addr).state;
      ReceivedBy(r.sent[|s.sent|..], s.nextId)
        == [c.Encrypt(AckBytes)] + (if |s.queue| == 0 then [] else [c.Encrypt(s.queue[0])])
  {
    ConnectSends(c, s, addr);
    var id := s.nextId;
    if |s.queue| == 0 {
      assert ReceivedBy([Sent(id, c.Encrypt(AckBytes))], id) == [c.Encrypt(AckBytes)];
    } else {
      var data := c.Encrypt(s.queue[0]);
      var table := s.clients[addr := id];
      BroadcastSplit(s.order, addr, table, data);
      EarlierClientsNotNew(s, addr, data);
      AckThenOwnSend(id, c.Encrypt(AckBytes), Broadcast(s.order, table, data), data);
    }
  }

  /** Broadcasting after `addr` joined: the earlier keys first, then `addr`. */
  lemma BroadcastSplit(order: seq<Addr>, addr: Addr, table: map<Addr, ClientId>, data: Bytes)
    requires addr in table
    ensures Broadcast(order + [addr], table, data) == Broadcast(order, table, data) + [Sent(table[addr], data)]
  {
    assert (order + [addr])[..|order|] == order;
  }

  lemma AckThenOwnSend(id: ClientId, ack: Bytes, earlier: seq<Sent>, data: Bytes)
    requires ReceivedBy(earlier, id) == []
    ensures ReceivedBy([Sent(id, ack)] + (earlier + [Sent(id, data)]), id) == [ack, data]
  {
    ReceivedByAppend([Sent(id, ack)], earlier + [Sent(id, data)], id);
    ReceivedByAppend(earlier, [Sent(id, data)], id);
    assert ReceivedBy([Sent(id, data)], id) == [data];
    assert ReceivedBy([Sent(id, ack)], id) == [ack];
  }

  /** A broadcast over the clients that existed before `connect` never reaches the new identity. */
  lemma EarlierClientsNotNew(s: State, addr: Addr, data: Bytes)
    requires Inv(s) && addr !in s.clients
    ensures ReceivedBy(Broadcast(s.order, s.clients[addr := s.nextId], data), s.nextId) == []
  {
    var table := s.clients[addr := s.nextId];
    var earlier := Broadcast(s.order, table, data);
    assert forall a :: a in s.order ==> a in table;
    BroadcastAt(s.order, table, data);
    forall k | 0 <= k < |earlier|
      ensures earlier[k].client != s.nextId
    {
      assert s.order[k] in s.clients;
      assert earlier[k].client == s.clients[s.order[k]];
    }
    ReceivedByNone(earlier, s.nextId);
  }

  /**
   * The replayed first message is broadcast: every client that existed
   * before the connect receives it again.
   */
  lemma ReplayReachesOldClients(c: Config, s: State, addr: Addr)
    requires Inv(s) && Creates(c, s, addr) && |s.queue| >= 1
    ensures var r := ConnectSpec(c, s, addr).state;
      forall b :: b in s.clients ==> Sent(s.clients[b], c.Encrypt(s.queue[0])) in r.sent[|s.sent|..]
  {
    ConnectSends(c, s, addr);
    var data := c.Encrypt(s.queue[0]);
    var fan := Broadcast(s.order + [addr], s.clients[addr := s.nextId], data);
    BroadcastCoversEarlier(s, addr, data);
    var tail := ConnectSpec(c, s, addr).state.sent[|s.sent|..];
    assert tail == [Sent(s.nextId, c.Encrypt(AckBytes))] + fan;
    assert forall x :: x in fan ==> x in tail;
  }

  /** A broadcast after `addr` joined reaches every client that was there before. */
  lemma BroadcastCoversEarlier(s: State, addr: Addr, data: Bytes)
    requires Inv(s) && addr !in s.clients
    ensures forall b :: b in s.clients ==>
      Sent(s.clients[b], data) in Broadcast(s.order + [addr], s.clients[addr := s.nextId], data)
  {
    var table := s.clients[addr := s.nextId];
    var order := s.order + [addr];
    assert forall a :: a in order ==> a in table;
    BroadcastAt(order, table, data);
    var fan := Broadcast(order, table, data);
    forall b | b in s.clients
      ensures Sent(s.clients[b], data) in fan
    {
      assert b in s.order;
      var i :| 0 <= i < |s.order| && s.order[i] == b;
      assert order[i] == b && table[b] == s.clients[b];
      assert fan[i] == Sent(s.clients[b], data);
    }
  }

  // ---------------------------------------------------------------- deferred connects and dedup

  /**
   * The emission of `ready` to one more request registered last: it runs
   * after all the earlier ones, unless one of them threw, in which case it
   * stays registered and is never run.
   */
  lemma {:induction false} DrainSnoc(c: Config, s: State, pending: seq<Addr>, addr: Addr)
    ensures var d := DrainSpec(c, s, pending);
      DrainSpec(c, s, pending + [addr])
        == if d.outcome.Threw? then Step(d.state.(deferred := d.state.deferred + [addr]), d.outcome)
           else ConnectSpec(c, d.state, addr)
    decreases |pending|
  {
    if pending == [] {
      assert pending + [addr] == [addr] && [addr][1..] == [];
      var st := ConnectSpec(c, s, addr);
      assert st.state.(deferred := st.state.deferred + []) == st.state;
    } else {
      var st := ConnectSpec(c, s, pending[0]);
      assert (pending + [addr])[0] == pending[0];
      assert (pending + [addr])[1..] == pending[1..] + [addr];
      if st.outcome.Threw? {
        Assoc(st.state.deferred, pending[1..], [addr]);
      } else {
        DrainSnoc(c, st.state, pending[1..], addr);
      }
    }
  }

  /**
   * A `connect` issued before ready is re-run, with all its guards, when the
   * DHT becomes ready, after the requests deferred before it; if one of
   * those throws, it stays registered and does not run.
   */
  lemma DeferredConnectRunsOnReady(c: Config, s: State, addr: Addr)
    requires !s.ready && addr !in s.clients && addr !in s.blacklist
    ensures var d := DrainSpec(c, s.(ready := true, events := s.events + [Ready], deferred := []), s.deferred);
      OnDhtReadySpec(c, ConnectSpec(c, s, addr).state)
        == if d.outcome.Threw? then Step(d.state.(deferred := d.state.deferred + [addr]), d.outcome)
           else ConnectSpec(c, d.state, addr)
  {
    var waiting := ConnectSpec(c, s, addr).state;
    assert waiting == s.(deferred := s.deferred + [addr]);
    var readied := s.(ready := true, events := s.events + [Ready], deferred := []);
    assert waiting.(ready := true, events := waiting.events + [Ready], deferred := []) == readied;
    DrainSnoc(c, readied, s.deferred, addr);
  }

  /**
   * As written: `connect(b)` then `connect(a)` before ready, with two
   * messages queued. At `ready` the replay of `b`'s connect throws out of
   * `emit('ready')`, so `b` has a client while `a` never gets one and its
   * request stays registered.
   */
  lemma DrainThrowStrandsLater(c: Config, s: State, a: Addr, b: Addr)
    requires Inv(s) && !s.ready && s.deferred == [] && |s.queue| >= 2 && a != b
    requires a !in s.clients && a !in s.blacklist
    requires b !in s.clients && b !in s.blacklist && c.myIp != Some(HostOf(b))
    ensures var r := OnDhtReadySpec(c, ConnectSpec(c, ConnectSpec(c, s, b).state, a).state);
      && r.outcome == Threw(NotAFunction)
      && b in r.state.clients
      && a !in r.state.clients
      && r.state.deferred == [a]
  {
    var readied := s.(ready := true, events := s.events + [Ready], deferred := []);
    var early := ConnectSpec(c, s, b).state;
    assert early == s.(deferred := [b]);
    assert early.(ready := true, events := early.events + [Ready], deferred := []) == readied;
    DeferredConnectRunsOnReady(c, early, a);
    DrainSnoc(c, readied, [], b);
    assert [] + [b] == [b];
    ConnectAsWritten(c, readied, b);
  }

  /**
   * `connect(addr)` twice before ready, then ready: the second request
   * changes nothing beyond staying registered when an earlier one threw.
   * With nothing deferred before, at most one client object is created,
   * under `addr` (none when `addr` is on the peer's own IP).
   */
  lemma DeferredTwiceConnectsOnce(c: Config, s: State, addr: Addr)
    requires Inv(s) && !s.ready && addr !in s.blacklist
    ensures var once := OnDhtReadySpec(c, ConnectSpec(c, s, addr).state);
      var twice := OnDhtReadySpec(c, ConnectSpec(c, ConnectSpec(c, s, addr).state, addr).state);
      twice == if once.outcome.Threw? then Step(once.state.(deferred := once.state.deferred + [addr]), once.outcome)
               else once
    ensures s.deferred == [] ==>
      var r := OnDhtReadySpec(c, ConnectSpec(c, ConnectSpec(c, s, addr).state, addr).state).state;
      var own := c.myIp == Some(HostOf(addr));
      && r.clients.Keys == (if own then {} else {addr})
      && r.nextId == s.nextId + (if own then 0 else 1)
  {
    assert s.clients == map[] by {
      assert s.clients.Keys <= s.wired;
    }
    var first := ConnectSpec(c, s, addr).state;
    assert first == s.(deferred := s.deferred + [addr]);
    var readied := s.(ready := true, events := s.events + [Ready], deferred := []);
    DeferredConnectRunsOnReady(c, first, addr);
    assert first.(ready := true, events := first.events + [Ready], deferred := []) == readied;
    DeferredConnectRunsOnReady(c, s, addr);
    var once := OnDhtReadySpec(c, first);
    if once.outcome.Returned? {
      var d := DrainSpec(c, readied, s.deferred);
      assert !d.outcome.Threw? && once == ConnectSpec(c, d.state, addr);
      assert ConnectSpec(c, once.state, addr) == Step(once.state, Returned);
    }
    if s.deferred == [] {
      assert DrainSpec(c, readied, []) == Step(readied, Returned);
    }
  }

  /**
   * A DHT announce of the peer's info-hash opens one client under its
   * address and sends it the first `ACK`; the same announce again, which the
   * DHT may repeat, opens nothing.
   */
  lemma AnnounceConnectsOnce(c: Config, s: State, addr: Addr)
    requires Inv(s) && Creates(c, s, addr)
    ensures var r := OnAnnounceSpec(c, s, addr, c.peerInfoHash).state;
      && r.clients == s.clients[addr := s.nextId]
      && s.nextId !in s.clients.Values
      && r.sent[|s.sent|] == Sent(s.nextId, c.Encrypt(AckBytes))
      && OnAnnounceSpec(c, r, addr, c.peerInfoHash) == Step(r, Returned)
  {
    ConnectAsWritten(c, s, addr);
  }

  /**
   * The `announce` listener: an announce changes the client table exactly
   * when it carries the peer's info-hash and `connect` gets past its guards,
   * and an announce of any other info-hash changes nothing.
   */
  lemma AnnounceFilter(c: Config, s: State, addr: Addr, infoHash: InfoHash)
    ensures infoHash != c.peerInfoHash ==> OnAnnounceSpec(c, s, addr, infoHash) == Step(s, Returned)
    ensures OnAnnounceSpec(c, s, addr, infoHash).state.clients != s.clients
      <==> infoHash == c.peerInfoHash && Creates(c, s, addr)
  {
    if infoHash == c.peerInfoHash && Creates(c, s, addr) {
      assert addr in OnAnnounceSpec(c, s, addr, infoHash).state.clients;
    }
  }

  /**
   * The `peer:<myInfoHash>` listener: only lookups of the peer's own
   * info-hash reach `connect`.
   */
  lemma TopicPeerFilter(c: Config, s: State, topic: InfoHash, addr: Addr)
    ensures topic != c.myInfoHash ==> OnTopicPeerSpec(c, s, topic, addr) == Step(s, Returned)
    ensures OnTopicPeerSpec(c, s, topic, addr).state.clients != s.clients
      <==> topic == c.myInfoHash && Creates(c, s, addr)
  {
    if topic == c.myInfoHash && Creates(c, s, addr) {
      assert addr in OnTopicPeerSpec(c, s, topic, addr).state.clients;
    }
  }

  // ---------------------------------------------------------------- invariant and blacklist over traces

  lemma ConnectKeepsInv(c: Config, s: State, addr: Addr)
    requires Inv(s)
    ensures Inv(ConnectSpec(c, s, addr).state)
  {
    if Creates(c, s, addr) {
      var r := ConnectSpec(c, s, addr).state;
      assert addr !in s.order;
      assert forall i :: 0 <= i < |s.order| ==> r.order[i] == s.order[i];
    }
  }

  lemma {:induction false} DrainKeepsInv(c: Config, s: State, pending: seq<Addr>)
    requires Inv(s)
    ensures Inv(DrainSpec(c, s, pending).state)
    decreases |pending|
  {
    if pending != [] {
      ConnectKeepsInv(c, s, pending[0]);
      DrainKeepsInv(c, ConnectSpec(c, s, pending[0]).state, pending[1..]);
    }
  }

  lemma ApplyKeepsInv(c: Config, s: State, i: Input)
    requires Inv(s)
    ensures Inv(Apply(c, s, i))
  {
    match i
    case ConnectCall(addr) => ConnectKeepsInv(c, s, addr);
    case AnnounceIn(addr, _) => ConnectKeepsInv(c, s, addr);
    case TopicPeerIn(_, addr) => ConnectKeepsInv(c, s, addr);
    case DataIn(addr, raw) => OnDataKeepsInv(c, s, addr, raw);
    case DhtReadyIn =>
      if !s.ready {
        DrainKeepsInv(c, s.(ready := true, events := s.events + [Ready], deferred := []), s.deferred);
      }
    case _ =>
  }

  /** Every trace of calls and events keeps the invariant. */
  lemma {:induction false} RunKeepsInv(c: Config, s: State, inputs: seq<Input>)
    requires Inv(s)
    ensures Inv(Run(c, s, inputs))
    decreases |inputs|
  {
    if inputs != [] {
      ApplyKeepsInv(c, s, inputs[0]);
      RunKeepsInv(c, Apply(c, s, inputs[0]), inputs[1..]);
    }
  }

  lemma ApplyKeepsBlacklist(c: Config, s: State, i: Input)
    ensures s.blacklist <= Apply(c, s, i).blacklist
  {
  }

  /**
   * A blacklisted address stays blacklisted through any trace, and
   * `connect` to it is then a no-op.
   */
  lemma {:induction false} BlacklistPermanent(c: Config, s: State, inputs: seq<Input>, addr: Addr)
    requires addr in s.blacklist
    ensures addr in Run(c, s, inputs).blacklist
    ensures ConnectSpec(c, Run(c, s, inputs), addr) == Step(Run(c, s, inputs), Returned)
    decreases |inputs|
  {
    if inputs != [] {
      ApplyKeepsBlacklist(c, s, inputs[0]);
      BlacklistPermanent(c, Apply(c, s, inputs[0]), inputs[1..], addr);
    }
  }

  /**
   * A message from `addr` that fails to decrypt: after it and any later
   * trace, `addr` is blacklisted, has no client, and `connect(addr)` is a no-op.
   */
  lemma DecryptFailureIsPermanent(c: Config, s: State, addr: Addr, raw: Bytes, later: seq<Input>)
    requires Inv(s) && addr in s.wired && c.Decrypt(raw).None?
    ensures var r := Run(c, OnDataSpec(c, s, addr, raw), later);
      && addr in r.blacklist
      && addr !in r.clients
      && ConnectSpec(c, r, addr) == Step(r, Returned)
  {
    var t := OnDataSpec(c, s, addr, raw);
    OnDataKeepsInv(c, s, addr, raw);
    RunKeepsInv(c, t, later);
    BlacklistPermanent(c, t, later, addr);
  }
}
