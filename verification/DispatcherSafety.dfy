/** What every run of the dispatcher keeps, whatever arrives and in whatever order. */
module DispatcherSafety {
  import opened Common
  import opened Addresses
  import opened Endpoints
  import opened Peers
  import opened Tunnel
  import opened DispatcherSpec

  // ---- one table entry, and the invariant over all runs

  /** No endpoint claims to be the relay, and no address is listed twice. */
  ghost predicate EpsOk(eps: seq<Endpoint>) {
    && (forall i :: 0 <= i < |eps| ==> eps[i].source != Relay)
    && (forall i, j :: 0 <= i < j < |eps| ==> eps[i].addr != eps[j].addr)
  }

  ghost predicate PeerSafe(v: Vip, p: Peer, sessions: map<Key, SessionId>, known: map<Key, PeerConfig>) {
    && p.vip == v
    && EpsOk(p.eps)
    && (p.state == DirectOk ==> !p.usingRelay && p.key in known)
    && (HasWorking(p.eps) ==> p.state == DirectOk)
    && (p.state == RelayOk ==> p.usingRelay && p.key in sessions)
  }

  ghost predicate Safe(s: Node) {
    forall v :: v in s.peers ==> PeerSafe(v, s.peers[v], s.sessions, s.tun.known)
  }

  lemma UpsertKeepsOk(eps: seq<Endpoint>, a: SocketAddr, source: Source)
    requires EpsOk(eps) && source != Relay
    ensures EpsOk(Upsert(eps, a, source))
  {
  }

  lemma UpsertHas(eps: seq<Endpoint>, a: SocketAddr, source: Source)
    ensures Has(Upsert(eps, a, source), a)
  {
    var r := Upsert(eps, a, source);
    if Has(eps, a) {
      var i :| 0 <= i < |eps| && eps[i].addr == a;
      assert r[i].addr == a;
    } else {
      assert r[|eps|].addr == a;
    }
  }

  lemma AnswerWorks(eps: seq<Endpoint>, a: SocketAddr, rtt: nat, probesAfterPong: nat -> nat)
    requires Has(eps, a)
    ensures HasWorking(RecordPong(eps, a, rtt, probesAfterPong))
  {
    var i :| 0 <= i < |eps| && eps[i].addr == a;
    assert RecordPong(eps, a, rtt, probesAfterPong)[i].status == Working;
  }

  lemma RecordPongIsSafe(cfg: Config, v: Vip, p: Peer, a: SocketAddr, now: nat, rtt: nat,
                         sessions: map<Key, SessionId>, known: map<Key, PeerConfig>)
    requires RankingOk(cfg.best) && PeerSafe(v, p, sessions, known)
    ensures var q := p.RecordPong(cfg, a, now, rtt);
            && q.key == p.key && q.vip == v && EpsOk(q.eps)
            && ((q.state == p.state && q.usingRelay == p.usingRelay)
                || (q.state == DirectOk && !q.usingRelay && BestAddr(cfg, q).Some?))
  {
    var q := p.RecordPong(cfg, a, now, rtt);
    assert EpsOk(q.eps);
    assert HasWorking(q.eps) ==> cfg.best(q.eps).Some? && cfg.best(q.eps).value in q.eps;
  }

  lemma PongIsSafe(cfg: Config, s: Node, env: Env, raw: SocketAddr, m: PongMsg)
    requires Safe(s) && RankingOk(cfg.best)
    ensures Safe(OnPong(cfg, s, env, raw, m).node)
  {
    var t := OnPong(cfg, s, env, raw, m).node;
    if m.tx in s.pings && s.pings[m.tx].vip in s.peers {
      var v := s.pings[m.tx].vip;
      assert PeerSafe(v, s.peers[v], s.sessions, s.tun.known);
      UpsertKeepsOk(s.peers[v].eps, Normalize(raw), DirectProbe);
      RecordPongIsSafe(cfg, v, s.peers[v].AddEndpoint(Normalize(raw), DirectProbe), Normalize(raw), env.now,
                       Elapsed(s.pings[m.tx], env.now), s.sessions, s.tun.known);
    }
    forall u | u in t.peers ensures PeerSafe(u, t.peers[u], t.sessions, t.tun.known) {
      assert PeerSafe(u, s.peers[u], s.sessions, s.tun.known);
    }
  }

  lemma DiscoverIsSafe(m: PingMsg, a: SocketAddr, now: nat, sessions: map<Key, SessionId>, known: map<Key, PeerConfig>)
    ensures Discover(m, a, now).eps == [Endpoint(a, DirectProbe, Untried, 0, None)]
    ensures PeerSafe(m.senderVip, Discover(m, a, now), sessions, known)
  {
    var first := Upsert([], a, Nucleus);
    assert first == [Endpoint(a, Nucleus, Untried, 0, None)];
    assert first[0].addr == a && Has(first, a);
    assert Discover(m, a, now).eps == Upsert(first, a, DirectProbe);
  }

  lemma PingIsSafe(cfg: Config, s: Node, env: Env, raw: SocketAddr, m: PingMsg)
    requires Safe(s)
    ensures Safe(OnPing(cfg, s, env, raw, m).node)
  {
    var t := OnPing(cfg, s, env, raw, m).node;
    DiscoverIsSafe(m, Normalize(raw), env.now, t.sessions, t.tun.known);
    if m.senderVip in s.peers {
      assert PeerSafe(m.senderVip, s.peers[m.senderVip], s.sessions, s.tun.known);
      AddIsSafe(m.senderVip, s.peers[m.senderVip], Some(Normalize(raw)), DirectProbe, s.sessions, s.tun.known);
    }
    forall u | u in t.peers ensures PeerSafe(u, t.peers[u], t.sessions, t.tun.known) {
      assert u in s.peers ==> PeerSafe(u, s.peers[u], s.sessions, s.tun.known);
    }
  }

  lemma AckIsSafe(cfg: Config, s: Node, env: Env, raw: SocketAddr, m: AckMsg, order: seq<Vip>)
    requires Safe(s)
    ensures Safe(OnRelayAck(cfg, s, env, raw, m, order).node)
  {
    var target := AckTarget(s, m, order);
    if target.Some? && target.value in s.peers {
      assert PeerSafe(target.value, s.peers[target.value], s.sessions, s.tun.known);
    }
  }

  lemma UpsertAddsNoWorking(eps: seq<Endpoint>, a: SocketAddr, source: Source)
    ensures HasWorking(Upsert(eps, a, source)) <==> HasWorking(eps)
    ensures Upsert(eps, a, source) != []
  {
    var r := Upsert(eps, a, source);
    assert forall i :: 0 <= i < |eps| ==> r[i].status == eps[i].status;
    if HasWorking(eps) {
      var i :| 0 <= i < |eps| && eps[i].status == Working;
      assert r[i].status == Working;
    }
  }

  lemma LearnWithoutWorking(cfg: Config, p: Peer, info: PeerInfo, ourNat: Option<NatType>)
    ensures var q := Learn(cfg, p, info, ourNat);
            var r := Resets(cfg, p, info);
            && (HasWorking(q.eps) <==> HasWorking(p.eps) && !r)
            && q.state == (if r then Init else p.state)
            && q.usingRelay == (if r then false else p.usingRelay)
            && (info.endpoint.Some? ==> q.eps != [])
  {
    var p0 := if Resets(cfg, p, info) then ResetPeer(p) else p;
    if info.endpoint.Some? {
      UpsertAddsNoWorking(p0.eps, info.endpoint.value, Nucleus);
    }
    var p1 := if info.endpoint.Some? then p0.AddEndpoint(info.endpoint.value, Nucleus) else p0;
    if info.mapped.Some? {
      UpsertAddsNoWorking(p1.eps, info.mapped.value, PortMap);
    }
  }

  lemma AddIsSafe(v: Vip, p: Peer, a: Option<SocketAddr>, source: Source,
                  sessions: map<Key, SessionId>, known: map<Key, PeerConfig>)
    requires PeerSafe(v, p, sessions, known) && source != Relay
    ensures PeerSafe(v, if a.Some? then p.AddEndpoint(a.value, source) else p, sessions, known)
  {
    if a.Some? {
      UpsertKeepsOk(p.eps, a.value, source);
      UpsertAddsNoWorking(p.eps, a.value, source);
    }
  }

  lemma LearnIsSafe(cfg: Config, v: Vip, p: Peer, info: PeerInfo, ourNat: Option<NatType>,
                    sessions: map<Key, SessionId>, known: map<Key, PeerConfig>)
    requires PeerSafe(v, p, sessions, known)
    ensures PeerSafe(v, Learn(cfg, p, info, ourNat), sessions, known)
  {
    var p0 := if Resets(cfg, p, info) then ResetPeer(p) else p;
    assert PeerSafe(v, p0, sessions, known);
    AddIsSafe(v, p0, info.endpoint, Nucleus, sessions, known);
    var p1 := if info.endpoint.Some? then p0.AddEndpoint(info.endpoint.value, Nucleus) else p0;
    AddIsSafe(v, p1, info.mapped, PortMap, sessions, known);
    var p2 := if info.mapped.Some? then p1.AddEndpoint(info.mapped.value, PortMap) else p1;
    var q := Learn(cfg, p, info, ourNat);
    assert q == p2.(vip6 := q.vip6, natType := q.natType, strategy := q.strategy);
  }

  lemma EntryIsSafe(s: Node, info: PeerInfo, ourNat: Option<NatType>)
    requires Safe(s)
    ensures PeerSafe(info.vip, Entry(s, info, ourNat), s.sessions, s.tun.known)
  {
  }

  lemma FreshEntry(cfg: Config, s: Node, info: PeerInfo, ourNat: Option<NatType>)
    requires info.vip !in s.peers
    ensures var p := Learn(cfg, Entry(s, info, ourNat), info, ourNat);
            && p.vip == info.vip && p.key == info.key && p.strategy == SelectStrategy(ourNat, info.natType)
            && !HasWorking(p.eps) && p.state == Init
            && (p.eps == [] <==> info.endpoint.None? && info.mapped.None?)
            && forall i :: 0 <= i < |p.eps| ==> p.eps[i].probes == 0
  {
    LearnWithoutWorking(cfg, Entry(s, info, ourNat), info, ourNat);
  }

  lemma {:induction false} ProbeKeepsOk(cfg: Config, r: ProbeRound, env: Env, vip: Vip, addrs: seq<SocketAddr>, n: nat)
    requires n <= |addrs| && EpsOk(r.eps)
    ensures EpsOk(Probe(cfg, r, env, vip, addrs, n).eps)
  {
    if n > 0 {
      ProbeKeepsOk(cfg, r, env, vip, addrs, n - 1);
    }
  }

  lemma {:induction false} ProbeAddsNoWorking(cfg: Config, r: ProbeRound, env: Env, v: Vip,
                                              addrs: seq<SocketAddr>, n: nat)
    requires n <= |addrs| && !HasWorking(r.eps)
    ensures !HasWorking(Probe(cfg, r, env, v, addrs, n).eps)
  {
    if n > 0 {
      ProbeAddsNoWorking(cfg, r, env, v, addrs, n - 1);
    }
  }

  lemma PursueIsSafe(cfg: Config, s: Node, env: Env, v: Vip, p: Peer)
    requires Safe(s) && PeerSafe(v, p, s.sessions, s.tun.known)
    ensures Safe(Pursue(cfg, s, env, v, p).node)
  {
    ProbeKeepsOk(cfg, ProbeRound(p.eps, s.pings, {}), env, v, Addrs(p.eps), |p.eps|);
    if !HasWorking(p.eps) {
      ProbeAddsNoWorking(cfg, ProbeRound(p.eps, s.pings, {}), env, v, Addrs(p.eps), |p.eps|);
    }
    var t := Pursue(cfg, s, env, v, p).node;
    forall u | u in t.peers ensures PeerSafe(u, t.peers[u], t.sessions, t.tun.known) {
      assert u != v ==> PeerSafe(u, s.peers[u], s.sessions, s.tun.known);
    }
  }

  lemma ExhaustIsSafe(cfg: Config, v: Vip, p: Peer, a: SocketAddr,
                      sessions: map<Key, SessionId>, known: map<Key, PeerConfig>)
    requires PeerSafe(v, p, sessions, known)
    ensures PeerSafe(v, Exhaust(cfg, p, a), sessions, known)
    ensures PeerSafe(v, p.(eps := MarkProbing(p.eps, a)), sessions, known)
  {
    assert EpsOk(MarkFailed(p.eps, a)) && EpsOk(MarkProbing(p.eps, a));
  }

  lemma TickOneIsSafe(cfg: Config, s: Node, env: Env, tx: TxId)
    requires Safe(s)
    ensures Safe(TickOne(cfg, s, env, tx).node)
  {
    var t := TickOne(cfg, s, env, tx).node;
    if tx in s.pings && s.pings[tx].vip in s.peers {
      var v := s.pings[tx].vip;
      assert PeerSafe(v, s.peers[v], s.sessions, s.tun.known);
      ExhaustIsSafe(cfg, v, s.peers[v], s.pings[tx].target, s.sessions, s.tun.known);
    }
    forall u | u in t.peers ensures PeerSafe(u, t.peers[u], t.sessions, t.tun.known) {
      assert PeerSafe(u, s.peers[u], s.sessions, s.tun.known);
    }
  }

  lemma {:induction false} TickIsSafe(cfg: Config, s: Node, env: Env, order: seq<TxId>, n: nat)
    requires Safe(s) && n <= |order|
    ensures Safe(TickSome(cfg, s, env, order, n).node)
  {
    if n > 0 {
      TickIsSafe(cfg, s, env, order, n - 1);
      TickOneIsSafe(cfg, TickSome(cfg, s, env, order, n - 1).node, env, order[n - 1]);
    }
  }

  lemma StepIsSafe(cfg: Config, s: Node, ev: Event, env: Env)
    requires Safe(s) && RankingOk(cfg.best)
    ensures Safe(Step(cfg, s, ev, env).node)
  {
    match ev
    case GotPing(src, m) => PingIsSafe(cfg, s, env, src, m);
    case GotPong(src, m) => PongIsSafe(cfg, s, env, src, m);
    case GotAck(src, m, vips) => AckIsSafe(cfg, s, env, src, m, vips);
    case GotInfo(info, ourNat) =>
      EntryIsSafe(s, info, ourNat);
      LearnIsSafe(cfg, info.vip, Entry(s, info, ourNat), info, ourNat, s.sessions, s.tun.known);
      PursueIsSafe(cfg, s, env, info.vip, Learn(cfg, Entry(s, info, ourNat), info, ourNat));
    case GotRemoved(vips) =>
    case Tick(order) => TickIsSafe(cfg, s, env, order, |order|);
    case WgHandshake(key, at) =>
    case Disconnect =>
  }

  /** In every reachable state: a table key is the stored VIP, no endpoint claims to be the relay and no
      address is listed twice, a relayed peer has a session under its own key, the key of a directly
      connected one is among the peers that `add_peer` remembers, `using_relay` is set in RelayOk and clear
      in DirectOk, and only a directly connected peer has a working endpoint. */
  lemma {:induction false} AlwaysSafe(cfg: Config, run: seq<Input>)
    requires RankingOk(cfg.best)
    ensures Safe(Exec(cfg, START, run))
  {
    if run != [] {
      var i := |run| - 1;
      AlwaysSafe(cfg, run[..i]);
      StepIsSafe(cfg, Exec(cfg, START, run[..i]), run[i].ev, run[i].env);
    }
  }
}
