/** The dispatcher itself: the three tables and the tunnel, updated in place branch by branch
    (crates/omni-core/src/manager.rs:1629-2560). Every method is proved against its branch in
    DispatcherSpec; what the branches guarantee is proved there. */
module Dispatcher {
  import opened Common
  import opened Addresses
  import opened Endpoints
  import opened Peers
  import opened Tunnel
  import opened DispatcherSpec

  class Dispatcher {
    const cfg: Config
    const tun: OmniTun
    var peers: map<Vip, Peer>
    var pings: map<TxId, Pending>
    var sessions: map<Key, SessionId>

    function State(): Node
      reads this, tun
    {
      Node(peers, pings, sessions, tun.State())
    }

    constructor (cfg: Config)
      ensures this.cfg == cfg && fresh(tun) && State() == START
    {
      this.cfg := cfg;
      tun := new OmniTun();
      peers, pings, sessions := map[], map[], map[];
    }

    method ConfigurePeer(env: Env, p: Peer, endpoint: Option<SocketAddr>)
      modifies tun
      ensures tun.State() == Configure(old(tun.State()), env, p, endpoint)
    {
      var ips := [Host4(p.vip)];
      if p.vip6.Some? {
        ips := ips + [Host6(p.vip6.value)];
      }
      assert ips == AllowedIps(p.vip, p.vip6);
      var _ := tun.Add(p.key, PeerConfig(endpoint, ips), env.now, env.wgOk);
    }

    method ConfigureBestEndpoint(env: Env, p: Peer)
      modifies tun
      ensures tun.State() == ConfigureBest(cfg, old(tun.State()), env, p)
    {
      var best := BestAddr(cfg, p);
      if best.Some? {
        ConfigurePeer(env, p, best);
      }
    }

    method HandlePing(env: Env, raw: SocketAddr, m: PingMsg) returns (sent: set<Packet>)
      modifies this, tun
      ensures Effect(State(), sent) == OnPing(cfg, old(State()), env, raw, m)
    {
      var src := Normalize(raw);
      sent := Send(cfg, env.sendOk(0), src, Pong(PongMsg(m.tx, cfg.ourKey)));
      if m.senderVip in peers {
        var p := peers[m.senderVip];
        if m.senderKey != p.key {
          return;
        }
        p := p.AddEndpoint(src, DirectProbe);
        p := p.(lastSeen := Some(env.now));
        peers := peers[m.senderVip := p];
        ConfigureBestEndpoint(env, p);
      } else {
        var p := NewPeer(m.senderVip, m.senderVip6, m.senderKey, Some(src), None, Direct);
        p := p.AddEndpoint(src, DirectProbe);
        p := p.(lastSeen := Some(env.now), state := DirectTry);
        ConfigurePeer(env, p, Some(src));
        peers := peers[m.senderVip := p];
        var tx := env.tx(1);
        if env.sendOk(1) {
          pings := pings[tx := Pending(src, m.senderVip, env.now, 0, cfg.maxRetries)];
          sent := sent + Send(cfg, true, src, OurPing(cfg, tx));
        }
      }
    }

    method HandlePong(env: Env, raw: SocketAddr, m: PongMsg)
      modifies this, tun
      ensures State() == OnPong(cfg, old(State()), env, raw, m).node
    {
      var src := Normalize(raw);
      if m.tx in pings {
        var pending := pings[m.tx];
        pings := pings - {m.tx};
        if pending.vip in peers {
          var p := peers[pending.vip];
          if m.responderKey != p.key {
            return;
          }
          p := p.AddEndpoint(src, DirectProbe);
          p := p.RecordPong(cfg, src, env.now, Elapsed(pending, env.now));
          peers := peers[pending.vip := p];
          ConfigureBestEndpoint(env, p);
        }
      }
    }

    // `values().find(...)` on the peer table, whose iteration order is `order`.
    method FindRelayTry(order: seq<Vip>) returns (v: Option<Vip>)
      requires IsOrder(order, peers.Keys)
      ensures v == FirstRelayTry(peers, order)
      ensures v.None? <==> forall u :: u in peers ==> peers[u].state != RelayTry
    {
      var i := 0;
      while i < |order|
        invariant 0 <= i <= |order|
        invariant FirstRelayTry(peers, order) == FirstRelayTry(peers, order[i..])
        invariant forall j :: 0 <= j < i ==> peers[order[j]].state != RelayTry
      {
        if peers[order[i]].state == RelayTry {
          return Some(order[i]);
        }
        assert order[i..][1..] == order[i + 1..];
        i := i + 1;
      }
      v := None;
    }

    method FindKey(order: seq<Vip>, key: Key) returns (v: Option<Vip>)
      requires IsOrder(order, peers.Keys)
      ensures v == FirstWithKey(peers, order, key)
      ensures v.None? <==> forall u :: u in peers ==> peers[u].key != key
      ensures v.Some? ==> v.value in peers && peers[v.value].key == key
    {
      var i := 0;
      while i < |order|
        invariant 0 <= i <= |order|
        invariant FirstWithKey(peers, order, key) == FirstWithKey(peers, order[i..], key)
        invariant forall j :: 0 <= j < i ==> peers[order[j]].key != key
      {
        if peers[order[i]].key == key {
          return Some(order[i]);
        }
        assert order[i..][1..] == order[i + 1..];
        i := i + 1;
      }
      v := None;
    }

    method HandleRelayAck(env: Env, raw: SocketAddr, m: AckMsg, order: seq<Vip>)
      requires IsOrder(order, peers.Keys)
      modifies this, tun
      ensures State() == OnRelayAck(cfg, old(State()), env, raw, m, order).node
    {
      if m.success {
        if m.session.Some? {
          var target: Key;
          if m.targetKey.Some? {
            target := m.targetKey.value;
          } else {
            var legacy := FindRelayTry(order);
            if legacy.None? {
              return;
            }
            FirstRelayTryWaits(peers, order);
            target := peers[legacy.value].key;
          }
          var v := FindKey(order, target);
          if v.Some? {
            var p := peers[v.value];
            if p.state != RelayTry {
              return;
            }
            p := p.MarkRelayed(env.now);
            peers := peers[v.value := p];
            sessions := sessions[p.key := m.session.value];
            var endpoint := if m.transparent then Some(Normalize(raw))
                            else if m.relayEndpoint.Some? then m.relayEndpoint else cfg.relayServer;
            if endpoint.Some? {
              ConfigurePeer(env, p, endpoint);
            }
          }
        }
      } else {
        var v: Option<Vip>;
        if m.targetKey.Some? {
          v := FindKey(order, m.targetKey.value);
        } else {
          v := FindRelayTry(order);
          FirstRelayTryWaits(peers, order);
        }
        if v.Some? && peers[v.value].state == RelayTry {
          peers := peers[v.value := peers[v.value].(state := ConnState.Failed)];
        }
      }
    }

    // One ping per known address of the peer (the three disco strategies share this loop).
    method SendPings(env: Env, p: Peer, addrs: seq<SocketAddr>) returns (q: Peer, sent: set<Packet>)
      modifies `pings
      ensures q == p.(eps := q.eps)
      ensures ProbeRound(q.eps, pings, sent)
              == Probe(cfg, ProbeRound(p.eps, old(pings), {}), env, p.vip, addrs, |addrs|)
    {
      q, sent := p, {};
      for i := 0 to |addrs|
        invariant q == p.(eps := q.eps)
        invariant ProbeRound(q.eps, pings, sent)
                  == Probe(cfg, ProbeRound(p.eps, old(pings), {}), env, p.vip, addrs, i)
      {
        var tx := env.tx(i);
        if env.sendOk(i) {
          q := q.(eps := MarkProbing(q.eps, addrs[i]));
          pings := pings[tx := Pending(addrs[i], p.vip, env.now, 0, cfg.maxRetries)];
          sent := sent + Send(cfg, true, addrs[i], OurPing(cfg, tx));
        }
      }
    }

    // Fails every old address one by one and clears the connection state.
    method ResetConnection(p: Peer) returns (q: Peer)
      ensures q == ResetPeer(p)
    {
      q := p;
      var addrs := Addrs(p.eps);
      for i := 0 to |addrs|
        invariant q == p.(eps := q.eps, state := q.state)
        invariant |q.eps| == |p.eps|
        invariant forall j :: 0 <= j < |p.eps| ==>
                    q.eps[j] == p.eps[j].(status := q.eps[j].status)
                    && (j < i ==> q.eps[j].status == Status.Failed)
      {
        q := q.MarkEndpointFailed(addrs[i]);
      }
      assert q.eps == AllFailed(p.eps);
      q := q.(state := Init, usingRelay := false, lastSeen := None);
    }

    // Merges one update into the peer: endpoints (with change detection), IPv6 address, strategy.
    method Merge(p: Peer, info: PeerInfo, ourNat: Option<NatType>) returns (q: Peer)
      ensures q == Learn(cfg, p, info, ourNat) && q.vip == p.vip
    {
      q := p;
      if info.endpoint.Some? {
        var previous := BestAddr(cfg, q);
        var changed := previous.Some? && previous.value != info.endpoint.value;
        if changed && HasWorking(q.eps) {
          q := ResetConnection(q);
        }
        q := q.AddEndpoint(info.endpoint.value, Nucleus);
      }
      if info.mapped.Some? {
        q := q.AddEndpoint(info.mapped.value, PortMap);
      }
      q := q.(vip6 := info.vip6);
      if q.natType != info.natType {
        q := q.UpdateStrategy(ourNat, info.natType);
      }
    }

    method HandlePeerInfo(env: Env, info: PeerInfo, ourNat: Option<NatType>) returns (sent: set<Packet>)
      requires info.vip in peers ==> peers[info.vip].vip == info.vip
      modifies this, tun
      ensures Effect(State(), sent) == OnPeerInfo(cfg, old(State()), env, info, ourNat)
    {
      var p: Peer;
      if info.vip in peers {
        p := peers[info.vip];
      } else {
        p := NewPeer(info.vip, info.vip6, info.key, info.endpoint, info.natType, SelectStrategy(ourNat, info.natType));
      }
      p := Merge(p, info, ourNat);
      sent := PursuePeer(env, p);
    }

    // Refresh WireGuard for a working peer, wait for the relay, or probe.
    method PursuePeer(env: Env, p: Peer) returns (sent: set<Packet>)
      modifies this, tun
      ensures Effect(State(), sent) == Pursue(cfg, old(State()), env, p.vip, p)
    {
      sent := {};
      if HasWorking(p.eps) {
        peers := peers[p.vip := p];
        ConfigureBestEndpoint(env, p);
      } else if p.strategy == RelayOnly {
        peers := peers[p.vip := p.(state := RelayTry)];
      } else if p.strategy == Direct && p.eps == [] {
        peers := peers[p.vip := p];
        ConfigurePeer(env, p, None);
      } else {
        sent := Connect(env, p);
      }
    }

    // Configure WireGuard with the first address, then ping all of them.
    method Connect(env: Env, p: Peer) returns (sent: set<Packet>)
      modifies this, tun
      ensures var r := Probe(cfg, ProbeRound(p.eps, old(pings), {}), env, p.vip, Addrs(p.eps), |p.eps|);
              && peers == old(peers)[p.vip := p.(eps := r.eps, state := DirectTry)]
              && pings == r.pings && sent == r.sent && sessions == old(sessions)
              && tun.State() == if p.eps == [] then old(tun.State())
                                else Configure(old(tun.State()), env, p, Some(p.eps[0].addr))
    {
      var addrs := Addrs(p.eps);
      if addrs != [] {
        ConfigurePeer(env, p, Some(addrs[0]));
      }
      var q;
      q, sent := SendPings(env, p, addrs);
      peers := peers[p.vip := q.(state := DirectTry)];
    }

    method HandleRemoved(vips: seq<Vip>)
      modifies `peers
      ensures State() == OnRemoved(old(State()), set v | v in vips).node
    {
      for i := 0 to |vips|
        invariant peers == old(peers) - set j | 0 <= j < i :: vips[j]
      {
        peers := peers - {vips[i]};
      }
      assert (set j | 0 <= j < |vips| :: vips[j]) == set v | v in vips;
    }

    // One outstanding ping during a tick: left alone, sent again, or given up (`expired`).
    method CheckPing(env: Env, tx: TxId) returns (expired: bool, sent: set<Packet>)
      requires tx in pings
      modifies this, tun
      ensures pings.Keys == old(pings.Keys)
      ensures Effect(Drop(State(), if expired then {tx} else {}), sent) == TickOne(cfg, old(State()), env, tx)
    {
      expired, sent := false, {};
      var d := pings[tx];
      if Overdue(cfg, d, env.now) {
        if d.retries < d.maxRetries {
          pings := pings[tx := d.(retries := d.retries + 1, sentAt := env.now)];
          if d.vip in peers {
            peers := peers[d.vip := peers[d.vip].(eps := MarkProbing(peers[d.vip].eps, d.target))];
          }
          sent := Send(cfg, env.sendOk(tx), d.target, OurPing(cfg, tx));
        } else {
          expired := true;
          if d.vip in peers {
            var p := peers[d.vip].MarkEndpointFailed(d.target);
            if NeedsRelay(p.eps) {
              if cfg.relayEnabled {
                p := p.(state := RelayTry);
              } else {
                p := p.(state := ConnState.Failed);
                ConfigurePeer(env, p, BestAddr(cfg, p));
              }
            }
            peers := peers[d.vip := p];
          }
        }
      }
    }

    // The retry branch: one pass over the outstanding pings, then the exhausted ones are dropped.
    method HandleTick(env: Env, order: seq<TxId>) returns (sent: set<Packet>)
      requires IsOrder(order, pings.Keys)
      modifies this, tun
      ensures Effect(State(), sent) == OnTick(cfg, old(State()), env, order)
    {
      sent := {};
      ghost var s := State();
      var timedOut: set<TxId> := {};
      assert pings - timedOut == pings;
      for i := 0 to |order|
        invariant pings.Keys == s.pings.Keys
        invariant forall j :: i <= j < |order| ==> order[j] !in timedOut
        invariant Effect(Drop(State(), timedOut), sent) == TickSome(cfg, s, env, order, i)
      {
        ghost var before := State();
        var expired, out := CheckPing(env, order[i]);
        TickOneMore(cfg, s, env, order, i, before, timedOut, sent, State(), expired, out);
        sent := sent + out;
        timedOut := timedOut + if expired then {order[i]} else {};
      }
      pings := pings - timedOut;
      sent := sent + Binds(cfg, peers, env);
    }

    // A WireGuard packet that completed a handshake.
    method HandleHandshake(env: Env, key: Key, at: nat)
      modifies tun
      ensures State() == Step(cfg, old(State()), WgHandshake(key, at), env).node
    {
      tun.OnHandshake(key, at);
    }

    method Disconnect()
      modifies this, tun
      ensures State() == START
    {
      tun.Reset();
      peers := map[];
      pings := map[];
      sessions := map[];
    }
  }

  ghost function Drop(s: Node, gone: set<TxId>): Node { s.(pings := s.pings - gone) }

  /** Looking at a ping does not depend on which other pings are already gone. */
  lemma TickOneFrame(cfg: Config, s: Node, env: Env, tx: TxId, gone: set<TxId>)
    requires tx !in gone
    ensures var e := TickOne(cfg, s, env, tx);
            TickOne(cfg, Drop(s, gone), env, tx) == e.(node := Drop(e.node, gone))
  {
    if tx in s.pings {
      var d := s.pings[tx];
      var d' := d.(retries := d.retries + 1, sentAt := env.now);
      assert (s.pings - gone)[tx := d'] == s.pings[tx := d'] - gone;
      assert (s.pings - gone) - {tx} == (s.pings - {tx}) - gone;
    }
  }

  lemma TickOneMore(cfg: Config, s: Node, env: Env, order: seq<TxId>, i: nat, before: Node, gone: set<TxId>,
                    sent: set<Packet>, after: Node, expired: bool, out: set<Packet>)
    requires i < |order| && order[i] !in gone
    requires Effect(Drop(before, gone), sent) == TickSome(cfg, s, env, order, i)
    requires Effect(Drop(after, if expired then {order[i]} else {}), out) == TickOne(cfg, before, env, order[i])
    ensures Effect(Drop(after, gone + if expired then {order[i]} else {}), sent + out)
            == TickSome(cfg, s, env, order, i + 1)
  {
    var now := if expired then {order[i]} else {};
    TickOneFrame(cfg, before, env, order[i], gone);
    assert Drop(Drop(after, now), gone) == Drop(after, gone + now) by {
      assert (after.pings - now) - gone == after.pings - (gone + now);
    }
  }

  lemma FirstRelayTryWaits(peers: map<Vip, Peer>, order: seq<Vip>)
    ensures var v := FirstRelayTry(peers, order);
            v.Some? ==> v.value in peers && peers[v.value].state == RelayTry
  {
  }
}
