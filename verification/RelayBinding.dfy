/** The relay handshake after a fallback: who is asked for on a tick, and whom an acknowledgement moves
    (crates/omni-core/src/manager.rs:1875-1998, 2507-2555). */
module RelayBinding {
  import opened Common
  import opened Addresses
  import opened Peers
  import opened DispatcherSpec
  import opened DispatcherSafety
  import opened StepOutcomes

  lemma {:induction false} RetriesBindNothing(cfg: Config, s: Node, env: Env, order: seq<TxId>, n: nat)
    requires n <= |order|
    ensures forall p :: p in TickSome(cfg, s, env, order, n).sent ==> p.msg.Ping?
  {
    if n > 0 {
      RetriesBindNothing(cfg, s, env, order, n - 1);
    }
  }

  /** A tick asks for the relay on behalf of a peer, under the key it is stored with, exactly when a relay
      is configured, that send works, and the peer is in RelayTry after the tick; and it asks the relay. */
  lemma TickAsksForWaitingPeers(cfg: Config, s: Node, env: Env, order: seq<TxId>, to: SocketAddr, key: Key, v: Vip)
    ensures var e := OnTick(cfg, s, env, order);
            Packet(to, Bind(key, v)) in e.sent <==>
            && cfg.relayEnabled && cfg.relayServer.Some? && to == SendAddr(cfg.macos, cfg.relayServer.value)
            && env.bindOk(v) && v in e.node.peers
            && e.node.peers[v].state == RelayTry && e.node.peers[v].key == key
  {
    RetriesBindNothing(cfg, s, env, order, |order|);
  }

  ghost predicate FirstAt(peers: map<Vip, Peer>, order: seq<Vip>, key: Key, i: nat)
    requires i < |order|
  {
    && order[i] in peers && peers[order[i]].key == key
    && forall j :: 0 <= j < i ==> order[j] in peers ==> peers[order[j]].key != key
  }

  lemma {:induction false} FirstWithKeyIs(peers: map<Vip, Peer>, order: seq<Vip>, key: Key)
    ensures var r := FirstWithKey(peers, order, key);
            && (r.None? ==> forall i :: 0 <= i < |order| && order[i] in peers ==> peers[order[i]].key != key)
            && (r.Some? ==> exists i :: 0 <= i < |order| && order[i] == r.value && FirstAt(peers, order, key, i))
  {
    if order != [] && !(order[0] in peers && peers[order[0]].key == key) {
      FirstWithKeyIs(peers, order[1..], key);
      var r := FirstWithKey(peers, order[1..], key);
      if r.Some? {
        var i :| 0 <= i < |order[1..]| && order[1..][i] == r.value && FirstAt(peers, order[1..], key, i);
        forall j | 0 <= j < i + 1 && order[j] in peers ensures peers[order[j]].key != key {
          if j > 0 {
            assert order[1..][j - 1] == order[j];
          }
        }
        assert FirstAt(peers, order, key, i + 1);
      } else {
        forall i | 0 <= i < |order| && order[i] in peers ensures peers[order[i]].key != key {
          if i > 0 {
            assert order[1..][i - 1] == order[i];
          }
        }
      }
    } else if order != [] {
      assert FirstAt(peers, order, key, 0);
    }
  }

  ghost predicate FirstWaiting(peers: map<Vip, Peer>, order: seq<Vip>, i: nat)
    requires i < |order|
  {
    && order[i] in peers && peers[order[i]].state == RelayTry
    && forall j :: 0 <= j < i ==> order[j] in peers ==> peers[order[j]].state != RelayTry
  }

  lemma {:induction false} FirstRelayTryIs(peers: map<Vip, Peer>, order: seq<Vip>)
    ensures var r := FirstRelayTry(peers, order);
            && (r.None? ==> forall i :: 0 <= i < |order| && order[i] in peers ==> peers[order[i]].state != RelayTry)
            && (r.Some? ==> exists i :: 0 <= i < |order| && order[i] == r.value && FirstWaiting(peers, order, i))
  {
    if order != [] && !(order[0] in peers && peers[order[0]].state == RelayTry) {
      FirstRelayTryIs(peers, order[1..]);
      var r := FirstRelayTry(peers, order[1..]);
      if r.Some? {
        var i :| 0 <= i < |order[1..]| && order[1..][i] == r.value && FirstWaiting(peers, order[1..], i);
        forall j | 0 <= j < i + 1 && order[j] in peers ensures peers[order[j]].state != RelayTry {
          if j > 0 {
            assert order[1..][j - 1] == order[j];
          }
        }
        assert FirstWaiting(peers, order, i + 1);
      } else {
        forall i | 0 <= i < |order| && order[i] in peers ensures peers[order[i]].state != RelayTry {
          if i > 0 {
            assert order[1..][i - 1] == order[i];
          }
        }
      }
    } else if order != [] {
      assert FirstWaiting(peers, order, 0);
    }
  }

  /** The place an acknowledgement points at: the first with the target key. A server that names no key
      means the first waiting peer; on success the code looks that peer up again by its key. */
  ghost predicate PointsAt(s: Node, m: AckMsg, order: seq<Vip>, i: nat)
    requires i < |order|
  {
    match m.targetKey
    case Some(k) => FirstAt(s.peers, order, k, i)
    case None =>
      if m.success then
        exists w :: 0 <= w < |order| && FirstWaiting(s.peers, order, w)
                    && FirstAt(s.peers, order, s.peers[order[w]].key, i)
      else FirstWaiting(s.peers, order, i)
  }

  lemma TargetIsPointedAt(s: Node, m: AckMsg, order: seq<Vip>)
    requires IsOrder(order, s.peers.Keys)
    ensures var target := AckTarget(s, m, order);
            forall i :: 0 <= i < |order| ==> (PointsAt(s, m, order, i) <==> target == Some(order[i]))
  {
    var target := AckTarget(s, m, order);
    if m.targetKey.Some? {
      KeyPlace(s, order, m.targetKey.value);
    } else {
      FirstRelayTryIs(s.peers, order);
      var waiting := FirstRelayTry(s.peers, order);
      if waiting.Some? {
        var w :| 0 <= w < |order| && order[w] == waiting.value && FirstWaiting(s.peers, order, w);
        assert forall i :: 0 <= i < |order| && FirstWaiting(s.peers, order, i) ==> i == w;
        KeyPlace(s, order, s.peers[order[w]].key);
      }
    }
  }

  lemma KeyPlace(s: Node, order: seq<Vip>, key: Key)
    requires IsOrder(order, s.peers.Keys)
    ensures forall i :: 0 <= i < |order| ==>
              (FirstAt(s.peers, order, key, i) <==> FirstWithKey(s.peers, order, key) == Some(order[i]))
  {
    FirstWithKeyIs(s.peers, order, key);
    var r := FirstWithKey(s.peers, order, key);
    if r.Some? {
      var k :| 0 <= k < |order| && order[k] == r.value && FirstAt(s.peers, order, key, k);
      assert forall i :: 0 <= i < |order| && FirstAt(s.peers, order, key, i) ==> i == k;
    }
  }

  /** An acknowledgement moves the peer at place i of the table exactly when it points there, that peer
      waits for the relay, and success comes with a session. The peer then has the session under its own
      key, or is Failed if the relay refused; every other peer stays as it was. */
  lemma AckMovesIff(cfg: Config, s: Node, env: Env, raw: SocketAddr, m: AckMsg, order: seq<Vip>, i: nat)
    requires IsOrder(order, s.peers.Keys) && i < |order|
    ensures var t := OnRelayAck(cfg, s, env, raw, m, order).node;
            var v := order[i];
            && t.peers.Keys == s.peers.Keys
            && if s.peers[v].state == RelayTry && PointsAt(s, m, order, i) && (m.success ==> m.session.Some?) then
                 && t.peers[v].state == (if m.success then RelayOk else ConnState.Failed)
                 && t.peers[v].usingRelay == (m.success || s.peers[v].usingRelay)
                 && t.sessions == (if m.success then s.sessions[s.peers[v].key := m.session.value] else s.sessions)
               else
                 t.peers[v] == s.peers[v]
  {
    TargetIsPointedAt(s, m, order);
  }

  /** What such an acknowledgement does, in full. On success WireGuard sends to the relay: to where the
      acknowledgement came from if the relay is transparent, else to the address it names or the configured
      server. */
  lemma AckOutcome(cfg: Config, s: Node, env: Env, raw: SocketAddr, m: AckMsg, order: seq<Vip>, i: nat)
    requires IsOrder(order, s.peers.Keys) && i < |order| && PointsAt(s, m, order, i)
    requires s.peers[order[i]].state == RelayTry && (m.success ==> m.session.Some?)
    ensures var e := Step(cfg, s, GotAck(raw, m, order), env);
            var t, v, p := e.node, order[i], s.peers[order[i]];
            && e.sent == {} && t.pings == s.pings
            && if m.success then
                 var relay := if m.transparent then Some(Normalize(raw))
                              else if m.relayEndpoint.None? then cfg.relayServer else m.relayEndpoint;
                 && t.peers == s.peers[v := p.(state := RelayOk, usingRelay := true, lastSeen := Some(env.now))]
                 && t.sessions == s.sessions[p.key := m.session.value]
                 && if relay.Some? then Configures(s, t, p.key, p.vip, p.vip6, relay) else t.tun == s.tun
               else t == s.(peers := s.peers[v := p.(state := ConnState.Failed)])
  {
    TargetIsPointedAt(s, m, order);
    var t, p := Step(cfg, s, GotAck(raw, m, order), env).node, s.peers[order[i]];
    var relay := if m.transparent then Some(Normalize(raw))
                 else if m.relayEndpoint.None? then cfg.relayServer else m.relayEndpoint;
    if m.success && relay.Some? {
      ConfigureConfigures(s, t, env, p.MarkRelayed(env.now), relay);
    }
  }

  /** Any other acknowledgement is ignored. */
  lemma AckIgnored(cfg: Config, s: Node, env: Env, raw: SocketAddr, m: AckMsg, order: seq<Vip>)
    requires IsOrder(order, s.peers.Keys)
    requires (m.success && m.session.None?)
             || forall i :: 0 <= i < |order| && PointsAt(s, m, order, i) ==> s.peers[order[i]].state != RelayTry
    ensures Step(cfg, s, GotAck(raw, m, order), env) == Effect(s, {})
  {
    TargetIsPointedAt(s, m, order);
    var target := AckTarget(s, m, order);
    if target.Some? && target.value in s.peers {
      var i :| 0 <= i < |order| && order[i] == target.value;
      assert PointsAt(s, m, order, i);
    }
  }

  /** So a waiting peer can be passed over only by one that shares its key. */
  lemma WaitingPeerIsServed(cfg: Config, s: Node, env: Env, raw: SocketAddr, m: AckMsg, order: seq<Vip>, v: Vip)
    requires IsOrder(order, s.peers.Keys) && m.success && m.session.Some?
    requires v in s.peers && s.peers[v].state == RelayTry && m.targetKey == Some(s.peers[v].key)
    requires forall u :: u in s.peers && s.peers[u].key == s.peers[v].key ==> u == v
    ensures var t := OnRelayAck(cfg, s, env, raw, m, order).node;
            && t.peers[v].state == RelayOk && t.sessions[s.peers[v].key] == m.session.value
            && forall u :: u in s.peers && u != v ==> t.peers[u] == s.peers[u]
  {
    var i :| 0 <= i < |order| && order[i] == v;
    assert FirstAt(s.peers, order, s.peers[v].key, i);
    AckMovesIff(cfg, s, env, raw, m, order, i);
    assert FirstAt(s.peers, order, s.peers[v].key, i);
    forall u | u in s.peers && u != v ensures OnRelayAck(cfg, s, env, raw, m, order).node.peers[u] == s.peers[u] {
      var j :| 0 <= j < |order| && order[j] == u;
      AckMovesIff(cfg, s, env, raw, m, order, j);
    }
  }

  /** After an update from signaling its peer waits for the relay. */
  ghost predicate Waits(cfg: Config, s: Node, env: Env, info: PeerInfo, ourNat: Option<NatType>) {
    var t := OnPeerInfo(cfg, s, env, info, ourNat).node;
    info.vip in t.peers && t.peers[info.vip].state == RelayTry
  }

  lemma NewPeerWaitsIff(cfg: Config, s: Node, env: Env, info: PeerInfo, ourNat: Option<NatType>)
    requires info.vip !in s.peers
    ensures Waits(cfg, s, env, info, ourNat) <==> SelectStrategy(ourNat, info.natType) == RelayOnly
  {
    FreshEntry(cfg, s, info, ourNat);
  }

  /** Two nodes that learn of each other from signaling, with the same report of both NATs, either both
      wait for the relay at once or neither does, and they do exactly when both NATs are symmetric. */
  lemma BothEndsWaitAlike(cfgA: Config, a: Node, envA: Env, infoB: PeerInfo,
                          cfgB: Config, b: Node, envB: Env, infoA: PeerInfo)
    requires infoB.vip !in a.peers && infoA.vip !in b.peers
    ensures Waits(cfgA, a, envA, infoB, infoA.natType) <==> Waits(cfgB, b, envB, infoA, infoB.natType)
    ensures Waits(cfgA, a, envA, infoB, infoA.natType) <==>
            infoA.natType == Some(Symmetric) && infoB.natType == Some(Symmetric)
  {
    StrategyIsSymmetric(infoA.natType, infoB.natType);
    NewPeerWaitsIff(cfgA, a, envA, infoB, infoA.natType);
    NewPeerWaitsIff(cfgB, b, envB, infoA, infoB.natType);
  }
}
