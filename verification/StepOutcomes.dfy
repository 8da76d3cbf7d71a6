/** What each input does to the tables, to WireGuard and to the network, told from the state before it and
    field by field (crates/omni-core/src/manager.rs:1637-2560). */
module StepOutcomes {
  import opened Common
  import opened Addresses
  import opened Endpoints
  import opened Peers
  import opened Tunnel
  import opened DispatcherSpec
  import opened DispatcherSafety
  import opened DispatcherHistory
  import opened DispatcherTiming
  import opened WireGuard

  // ---- vocabulary

  /** k is remembered with this endpoint and exactly v/32 and, if there is one, the IPv6 address as /128. */
  ghost predicate ConfiguredAs(known: map<Key, PeerConfig>, k: Key, v: Vip, v6: Option<Vip6>,
                               endpoint: Option<SocketAddr>) {
    && k in known && known[k].endpoint == endpoint
    && known[k].ips == match v6 case None => [Host4(v)] case Some(ip6) => [Host4(v), Host6(ip6)]
  }

  /** The remembered peers differ at most in k. */
  ghost predicate OnlyAt(s: Node, t: Node, k: Key) {
    forall j :: j != k ==>
      (j in t.tun.known <==> j in s.tun.known) && (j in s.tun.known ==> t.tun.known[j] == s.tun.known[j])
  }

  /** Only k was configured, namely like this. */
  ghost predicate Configures(s: Node, t: Node, k: Key, v: Vip, v6: Option<Vip6>, endpoint: Option<SocketAddr>) {
    ConfiguredAs(t.tun.known, k, v, v6, endpoint) && OnlyAt(s, t, k)
  }

  /** WireGuard gets the address that the ranking likes best of the peer's endpoints, if any, and is left
      alone otherwise. */
  ghost predicate ConfiguresBest(cfg: Config, s: Node, t: Node, p: Peer) {
    match cfg.best(p.eps)
    case Some(e) => Configures(s, t, p.key, p.vip, p.vip6, Some(e.addr))
    case None => t.tun == s.tun
  }

  /** `after` lists what `before` did, with a as learned from this source and all else unchanged. */
  ghost predicate Lists(before: seq<Endpoint>, after: seq<Endpoint>, a: SocketAddr, source: Source) {
    && (forall b :: Has(after, b) <==> Has(before, b) || b == a)
    && (forall i :: 0 <= i < |before| ==>
          i < |after| && after[i] == if before[i].addr == a then before[i].(source := source) else before[i])
    && (if Has(before, a) then |after| == |before|
        else |after| == |before| + 1 && after[|before|] == Endpoint(a, source, Untried, 0, None))
  }

  lemma UpsertLists(eps: seq<Endpoint>, a: SocketAddr, source: Source)
    ensures Lists(eps, Upsert(eps, a, source), a, source)
  {
    var after := Upsert(eps, a, source);
    UpsertHas(eps, a, source);
    assert forall i :: 0 <= i < |eps| ==> after[i].addr == eps[i].addr;
    forall b ensures Has(after, b) <==> Has(eps, b) || b == a {
      if Has(eps, b) {
        var i :| 0 <= i < |eps| && eps[i].addr == b;
        assert after[i].addr == b;
      }
      if Has(after, b) {
        var i :| 0 <= i < |after| && after[i].addr == b;
        assert i < |eps| ==> eps[i].addr == b;
      }
    }
  }

  lemma ConfigureConfigures(s: Node, t: Node, env: Env, p: Peer, endpoint: Option<SocketAddr>)
    requires t.tun == Configure(s.tun, env, p, endpoint)
    ensures Configures(s, t, p.key, p.vip, p.vip6, endpoint)
  {
  }

  // ---- DISCO_PING

  /** A ping of an unknown address makes it a peer in DirectTry, known under the key and the addresses in the
      ping and reachable at its source, which WireGuard gets too; a ping back becomes outstanding if sent. */
  lemma PingOfStranger(cfg: Config, s: Node, env: Env, src: SocketAddr, m: PingMsg)
    requires m.senderVip !in s.peers
    ensures var t := Step(cfg, s, GotPing(src, m), env).node;
            var v, a := m.senderVip, Normalize(src);
            && t.peers == s.peers[v := Peer(v, m.senderVip6, m.senderKey, [Endpoint(a, DirectProbe, Untried, 0, None)],
                                            DirectTry, Some(env.now), false, None, Direct)]
            && t.pings == (if env.sendOk(1) then s.pings[env.tx(1) := Pending(a, v, env.now, 0, cfg.maxRetries)]
                           else s.pings)
            && t.sessions == s.sessions
            && Configures(s, t, m.senderKey, v, m.senderVip6, Some(a))
  {
    var t := Step(cfg, s, GotPing(src, m), env).node;
    DiscoverIsSafe(m, Normalize(src), env.now, s.sessions, s.tun.known);
    ConfigureConfigures(s, t, env, Discover(m, Normalize(src), env.now), Some(Normalize(src)));
  }

  /** A ping of a known peer with its key adds the source to its endpoints and configures WireGuard with the
      best of them; with another key it changes nothing. */
  lemma PingOfPeer(cfg: Config, s: Node, env: Env, src: SocketAddr, m: PingMsg)
    requires m.senderVip in s.peers
    ensures var t := Step(cfg, s, GotPing(src, m), env).node;
            var p := s.peers[m.senderVip];
            if m.senderKey != p.key then t == s
            else
              && m.senderVip in t.peers
              && var q := t.peers[m.senderVip];
              && q == p.(eps := q.eps, lastSeen := Some(env.now)) && Lists(p.eps, q.eps, Normalize(src), DirectProbe)
              && t.peers == s.peers[m.senderVip := q] && t.pings == s.pings && t.sessions == s.sessions
              && ConfiguresBest(cfg, s, t, q)
  {
    var t := Step(cfg, s, GotPing(src, m), env).node;
    var p := s.peers[m.senderVip];
    if m.senderKey == p.key {
      UpsertLists(p.eps, Normalize(src), DirectProbe);
      if BestAddr(cfg, t.peers[m.senderVip]).Some? {
        ConfigureConfigures(s, t, env, t.peers[m.senderVip], BestAddr(cfg, t.peers[m.senderVip]));
      }
    }
  }

  /** Every ping is answered, whoever sent it: the pong repeats its id, carries our key and goes back to where
      the ping came from. A ping goes there too exactly if the sender was unknown. Nothing else is sent. */
  lemma PingIsAnswered(cfg: Config, s: Node, env: Env, src: SocketAddr, m: PingMsg, p: Packet)
    ensures p in Step(cfg, s, GotPing(src, m), env).sent <==>
            && p.to == SendAddr(cfg.macos, Normalize(src))
            && match p.msg
               case Pong(q) => env.sendOk(0) && q.tx == m.tx && q.responderKey == cfg.ourKey
               case Ping(q) => m.senderVip !in s.peers && env.sendOk(1) && IsOurs(cfg, q) && q.tx == env.tx(1)
               case Bind(_, _) => false
  {
  }

  /** A ping in our name. */
  ghost predicate IsOurs(cfg: Config, q: PingMsg) {
    q.senderKey == cfg.ourKey && q.senderVip == cfg.ourVip && q.senderVip6 == cfg.ourVip6
  }

  // ---- DISCO_PONG

  lemma RecordKeepsAddrs(eps: seq<Endpoint>, a: SocketAddr, rtt: nat, probesAfterPong: nat -> nat)
    ensures SameAddrs(eps, Endpoints.RecordPong(eps, a, rtt, probesAfterPong))
  {
  }

  lemma AnsweredEndpoints(cfg: Config, p: Peer, a: SocketAddr, now: nat, rtt: nat)
    ensures AnsweredFrom(p.eps, p.AddEndpoint(a, DirectProbe).RecordPong(cfg, a, now, rtt).eps, a, rtt)
  {
    var listed := Upsert(p.eps, a, DirectProbe);
    var after := p.AddEndpoint(a, DirectProbe).RecordPong(cfg, a, now, rtt).eps;
    UpsertLists(p.eps, a, DirectProbe);
    RecordKeepsAddrs(listed, a, rtt, cfg.probesAfterPong);
    SameAddrsHave(listed, after);
  }

  /** An answer consumes its ping, makes the source a working endpoint with the measured latency (none, if
      the clock went backwards) and the peer DirectOk, and configures WireGuard with the best endpoint. */
  lemma AnswerOutcome(cfg: Config, s: Node, env: Env, src: SocketAddr, m: PongMsg, v: Vip)
    requires Safe(s) && RankingOk(cfg.best) && Answers(s, m, v)
    ensures var e := Step(cfg, s, GotPong(src, m), env);
            var t, sentAt := e.node, s.pings[m.tx].sentAt;
            && e.sent == {} && v in t.peers
            && var p, q := s.peers[v], t.peers[v];
            && q == p.(eps := q.eps, state := DirectOk, usingRelay := false, lastSeen := Some(env.now))
            && t.peers == s.peers[v := q] && t.pings == s.pings - {m.tx} && t.sessions == s.sessions
            && AnsweredFrom(p.eps, q.eps, Normalize(src), if sentAt <= env.now then env.now - sentAt else 0)
            && ConfiguresBest(cfg, s, t, q)
  {
    var t := Step(cfg, s, GotPong(src, m), env).node;
    var a, p := Normalize(src), s.peers[v];
    var rtt := Elapsed(s.pings[m.tx], env.now);
    AnswerRecorded(cfg, s, env, src, m, v);
    AnswerFlag(cfg, s, env, src, m, v);
    AnsweredEndpoints(cfg, p, a, env.now, rtt);
    var q := p.AddEndpoint(a, DirectProbe).RecordPong(cfg, a, env.now, rtt);
    assert q == Answered(cfg, s, env, src, m) && t.peers[v] == q;
    ConfigureConfigures(s, t, env, q, BestAddr(cfg, q));
  }

  lemma AnswerFlag(cfg: Config, s: Node, env: Env, src: SocketAddr, m: PongMsg, v: Vip)
    requires Safe(s) && RankingOk(cfg.best) && Answers(s, m, v)
    ensures !Answered(cfg, s, env, src, m).usingRelay
  {
    var t := OnPong(cfg, s, env, src, m).node;
    AnswerRecorded(cfg, s, env, src, m, v);
    PongIsSafe(cfg, s, env, src, m);
    assert t.peers[v] == Answered(cfg, s, env, src, m);
    assert PeerSafe(v, t.peers[v], t.sessions, t.tun.known);
  }

  /** The endpoints at other addresses are as they were, and the one at a works with this latency. */
  ghost predicate AnsweredFrom(before: seq<Endpoint>, after: seq<Endpoint>, a: SocketAddr, rtt: nat) {
    && (forall b :: Has(after, b) <==> Has(before, b) || b == a)
    && (forall i :: 0 <= i < |before| && before[i].addr != a ==> i < |after| && after[i] == before[i])
    && (forall i :: 0 <= i < |after| && after[i].addr == a ==>
          after[i].status == Working && after[i].latency == Some(rtt) && after[i].source == DirectProbe)
  }

  // ---- PeerUpdate

  /** Which kind of update it is: the old connection stays, or the reported address contradicts it. */
  ghost predicate StaysUp(cfg: Config, p: Peer, info: PeerInfo) {
    && HasWorking(p.eps)
    && !(info.endpoint.Some? && cfg.best(p.eps).Some? && cfg.best(p.eps).value.addr != info.endpoint.value)
  }

  /** The strategy after an update: chosen anew exactly when the reported NAT type is another. */
  function NextStrategy(p: Peer, info: PeerInfo, ourNat: Option<NatType>): Strategy {
    if info.natType == p.natType then p.strategy else SelectStrategy(ourNat, info.natType)
  }

  /** The addresses of p keep their places and, unless reported again, their sources. */
  ghost predicate Sourced(p: Peer, q: Peer, info: PeerInfo) {
    && |p.eps| <= |q.eps|
    && forall i :: 0 <= i < |q.eps| ==> SourcedAt(p, q.eps[i], info, i)
  }

  ghost predicate SourcedAt(p: Peer, e: Endpoint, info: PeerInfo, i: nat) {
    && (i < |p.eps| ==> e.addr == p.eps[i].addr)
    && if info.mapped == Some(e.addr) then e.source == PortMap
       else if info.endpoint == Some(e.addr) then e.source == Nucleus
       else i < |p.eps| && e.source == p.eps[i].source
  }

  ghost predicate KnowsAddress(p: Peer, info: PeerInfo) { p.eps != [] || info.endpoint.Some? || info.mapped.Some? }

  /** An update of a known peer: it takes over the reported NAT type, IPv6 address and addresses, keeps its
      key, and ends in the state that the old connection and the resulting strategy demand. */
  lemma UpdateOutcome(cfg: Config, s: Node, env: Env, info: PeerInfo, ourNat: Option<NatType>)
    requires info.vip in s.peers
    ensures var t := Step(cfg, s, GotInfo(info, ourNat), env).node;
            info.vip in t.peers &&
            var p, q := s.peers[info.vip], t.peers[info.vip];
            && q.vip == p.vip && q.key == p.key && q.vip6 == info.vip6 && q.natType == info.natType
            && q.strategy == NextStrategy(p, info, ourNat)
            && (forall a :: Has(q.eps, a) <==> Has(p.eps, a) || info.endpoint == Some(a) || info.mapped == Some(a))
            && Sourced(p, q, info)
            && q.state == (if StaysUp(cfg, p, info) then p.state
                           else if q.strategy == RelayOnly then RelayTry
                           else if q.strategy == Direct && !KnowsAddress(p, info) then p.state
                           else DirectTry)
            && (HasWorking(q.eps) <==> StaysUp(cfg, p, info))
            && (if HasWorking(p.eps) && !StaysUp(cfg, p, info) then !q.usingRelay && q.lastSeen.None?
                else q.usingRelay == p.usingRelay && q.lastSeen == p.lastSeen)
            && (forall u :: u != info.vip ==>
                  (u in t.peers <==> u in s.peers) && (u in s.peers ==> t.peers[u] == s.peers[u]))
            && t.sessions == s.sessions
  {
    var p := Learn(cfg, s.peers[info.vip], info, ourNat);
    MergeOutcome(cfg, s.peers[info.vip], info, ourNat);
    PursueOutcome(cfg, s, env, info.vip, p);
    MergeSources(cfg, s.peers[info.vip], info, ourNat);
    var q := Pursue(cfg, s, env, info.vip, p).node.peers[info.vip];
    forall i | 0 <= i < |q.eps| ensures SourcedAt(s.peers[info.vip], q.eps[i], info, i) {
      assert SourcedAt(s.peers[info.vip], p.eps[i], info, i);
    }
  }

  ghost predicate SameAddrs(before: seq<Endpoint>, after: seq<Endpoint>) {
    && |after| == |before|
    && forall i :: 0 <= i < |before| ==> after[i].addr == before[i].addr && after[i].source == before[i].source
  }

  /** `after` lists what `before` did, and a if there is one. */
  ghost predicate ListsMaybe(before: seq<Endpoint>, after: seq<Endpoint>, a: Option<SocketAddr>, source: Source) {
    match a case None => after == before case Some(b) => Lists(before, after, b, source)
  }

  lemma TwoSources(eps0: seq<Endpoint>, eps1: seq<Endpoint>, eps2: seq<Endpoint>, info: PeerInfo, i: nat)
    requires ListsMaybe(eps0, eps1, info.endpoint, Nucleus) && ListsMaybe(eps1, eps2, info.mapped, PortMap)
    requires i < |eps2|
    ensures var e := eps2[i];
            && |eps0| <= |eps2| && (i < |eps0| ==> e.addr == eps0[i].addr)
            && if info.mapped == Some(e.addr) then e.source == PortMap
               else if info.endpoint == Some(e.addr) then e.source == Nucleus
               else i < |eps0| && e.source == eps0[i].source
  {
  }

  lemma MergeLists(cfg: Config, p: Peer, info: PeerInfo, ourNat: Option<NatType>)
    returns (eps0: seq<Endpoint>, eps1: seq<Endpoint>)
    ensures SameAddrs(p.eps, eps0) && ListsMaybe(eps0, eps1, info.endpoint, Nucleus)
    ensures ListsMaybe(eps1, Learn(cfg, p, info, ourNat).eps, info.mapped, PortMap)
  {
    eps0 := if Resets(cfg, p, info) then AllFailed(p.eps) else p.eps;
    eps1 := if info.endpoint.Some? then Upsert(eps0, info.endpoint.value, Nucleus) else eps0;
    if info.endpoint.Some? {
      UpsertLists(eps0, info.endpoint.value, Nucleus);
    }
    if info.mapped.Some? {
      UpsertLists(eps1, info.mapped.value, PortMap);
    }
  }

  lemma MergeSources(cfg: Config, p: Peer, info: PeerInfo, ourNat: Option<NatType>)
    ensures Sourced(p, Learn(cfg, p, info, ourNat), info)
  {
    var eps0, eps1 := MergeLists(cfg, p, info, ourNat);
    var eps2 := Learn(cfg, p, info, ourNat).eps;
    assert |p.eps| == |eps0| <= |eps1| <= |eps2|;
    forall i | 0 <= i < |eps2| ensures SourcedAt(p, eps2[i], info, i) {
      TwoSources(eps0, eps1, eps2, info, i);
    }
  }

  lemma SameAddrsHave(before: seq<Endpoint>, after: seq<Endpoint>)
    requires SameAddrs(before, after)
    ensures forall a :: Has(after, a) <==> Has(before, a)
  {
    forall a ensures Has(after, a) <==> Has(before, a) {
      if Has(after, a) {
        var i :| 0 <= i < |after| && after[i].addr == a;
        assert before[i].addr == a;
      }
      if Has(before, a) {
        var i :| 0 <= i < |before| && before[i].addr == a;
        assert after[i].addr == a;
      }
    }
  }

  lemma MergeOutcome(cfg: Config, p: Peer, info: PeerInfo, ourNat: Option<NatType>)
    ensures var q := Learn(cfg, p, info, ourNat);
            && q.vip == p.vip && q.key == p.key && q.vip6 == info.vip6 && q.natType == info.natType
            && q.strategy == NextStrategy(p, info, ourNat)
            && (forall a :: Has(q.eps, a) <==> Has(p.eps, a) || info.endpoint == Some(a) || info.mapped == Some(a))
            && (q.eps != [] <==> KnowsAddress(p, info))
            && (HasWorking(q.eps) <==> StaysUp(cfg, p, info))
            && (if HasWorking(p.eps) && !StaysUp(cfg, p, info)
                then q.state == Init && !q.usingRelay && q.lastSeen.None? && KnowsAddress(p, info)
                else q.state == p.state && q.usingRelay == p.usingRelay && q.lastSeen == p.lastSeen)
  {
    LearnWithoutWorking(cfg, p, info, ourNat);
    var p0 := if Resets(cfg, p, info) then ResetPeer(p) else p;
    assert Resets(cfg, p, info) <==> HasWorking(p.eps) && !StaysUp(cfg, p, info);
    SameAddrsHave(p.eps, p0.eps);
    var p1 := if info.endpoint.Some? then p0.AddEndpoint(info.endpoint.value, Nucleus) else p0;
    if info.endpoint.Some? {
      UpsertLists(p0.eps, info.endpoint.value, Nucleus);
    }
    if info.mapped.Some? {
      UpsertLists(p1.eps, info.mapped.value, PortMap);
    }
  }

  lemma {:induction false} ProbeKeepsAddrs(cfg: Config, r: ProbeRound, env: Env, v: Vip, addrs: seq<SocketAddr>, n: nat)
    requires n <= |addrs|
    ensures SameAddrs(r.eps, Probe(cfg, r, env, v, addrs, n).eps)
  {
    if n > 0 {
      ProbeKeepsAddrs(cfg, r, env, v, addrs, n - 1);
    }
  }

  lemma PursueOutcome(cfg: Config, s: Node, env: Env, v: Vip, p: Peer)
    ensures var t := Pursue(cfg, s, env, v, p).node;
            && v in t.peers && t.peers == s.peers[v := t.peers[v]] && t.sessions == s.sessions
            && var q := t.peers[v];
            && q == p.(eps := q.eps, state := q.state) && SameAddrs(p.eps, q.eps)
            && (forall a :: Has(q.eps, a) <==> Has(p.eps, a))
            && (HasWorking(q.eps) <==> HasWorking(p.eps))
            && q.state == (if HasWorking(p.eps) then p.state
                           else if p.strategy == RelayOnly then RelayTry
                           else if p.strategy == Direct && p.eps == [] then p.state
                           else DirectTry)
  {
    var t := Pursue(cfg, s, env, v, p).node;
    var r := ProbeRound(p.eps, s.pings, {});
    ProbeKeepsAddrs(cfg, r, env, v, Addrs(p.eps), |p.eps|);
    if !HasWorking(p.eps) {
      ProbeAddsNoWorking(cfg, r, env, v, Addrs(p.eps), |p.eps|);
    }
    SameAddrsHave(p.eps, t.peers[v].eps);
  }

  /** A known peer with nothing that stays up waits for the relay after an update exactly when the NATs
      demand it: both are reported symmetric now, or the NAT type is unchanged and the strategy was
      RelayOnly already (or the peer waited, with nothing to probe under Direct). */
  lemma KnownPeerWaitsIff(cfg: Config, s: Node, env: Env, info: PeerInfo, ourNat: Option<NatType>)
    requires info.vip in s.peers && !StaysUp(cfg, s.peers[info.vip], info)
    ensures var t := Step(cfg, s, GotInfo(info, ourNat), env).node;
            var p := s.peers[info.vip];
            info.vip in t.peers && (t.peers[info.vip].state == RelayTry <==>
              || (info.natType != p.natType && ourNat == Some(Symmetric) && info.natType == Some(Symmetric))
              || (info.natType == p.natType && p.strategy == RelayOnly)
              || (p.state == RelayTry && NextStrategy(p, info, ourNat) == Direct && !KnowsAddress(p, info)))
  {
    UpdateOutcome(cfg, s, env, info, ourNat);
    StrategyIsSymmetric(ourNat, info.natType);
  }

  /** What an update tells WireGuard about the peer q it leaves: the best endpoint of a connection that stays
      up; nothing for a peer that waits; the first known address of one that is probed, and no address
      under Direct without any. */
  ghost predicate UpdateConfigures(cfg: Config, s: Node, t: Node, q: Peer) {
    if HasWorking(q.eps) then ConfiguresBest(cfg, s, t, q)
    else if q.strategy == RelayOnly then t.tun == s.tun
    else if q.eps != [] then Configures(s, t, q.key, q.vip, q.vip6, Some(q.eps[0].addr))
    else if q.strategy == Direct then Configures(s, t, q.key, q.vip, q.vip6, None)
    else t.tun == s.tun
  }

  lemma UpdateReachesWireGuard(cfg: Config, s: Node, env: Env, info: PeerInfo, ourNat: Option<NatType>)
    ensures var t := Step(cfg, s, GotInfo(info, ourNat), env).node;
            info.vip in t.peers && UpdateConfigures(cfg, s, t, t.peers[info.vip])
  {
    var p := Learn(cfg, Entry(s, info, ourNat), info, ourNat);
    var t := Pursue(cfg, s, env, info.vip, p).node;
    PursueOutcome(cfg, s, env, info.vip, p);
    var q := t.peers[info.vip];
    if HasWorking(p.eps) {
      if BestAddr(cfg, q).Some? {
        ConfigureConfigures(s, t, env, q, BestAddr(cfg, q));
      }
    } else if p.strategy != RelayOnly && p.eps != [] {
      ConfigureConfigures(s, t, env, p, Some(p.eps[0].addr));
    } else if p.strategy == Direct {
      ConfigureConfigures(s, t, env, p, None);
    }
  }

  /** An update of an unknown peer makes the entry that it reports, and then treats it like any other. */
  lemma UpdateOfStranger(cfg: Config, s: Node, env: Env, info: PeerInfo, ourNat: Option<NatType>)
    requires info.vip !in s.peers
    ensures var t := Step(cfg, s, GotInfo(info, ourNat), env).node;
            && info.vip in t.peers && t.peers == s.peers[info.vip := t.peers[info.vip]] && t.sessions == s.sessions
            && var q := t.peers[info.vip];
            && q.vip == info.vip && q.vip6 == info.vip6 && q.key == info.key && q.natType == info.natType
            && q.lastSeen.None? && !q.usingRelay && q.strategy == SelectStrategy(ourNat, info.natType)
            && (forall a :: Has(q.eps, a) <==> info.endpoint == Some(a) || info.mapped == Some(a))
            && !HasWorking(q.eps)
            && q.state == (if q.strategy == RelayOnly then RelayTry
                           else if q.strategy == Direct && info.endpoint.None? && info.mapped.None? then Init
                           else DirectTry)
  {
    var p := Entry(s, info, ourNat);
    UpsertLists([], info.endpoint.Or((a: SocketAddr) => a, V4(0, 0)), Nucleus);
    assert !HasWorking(p.eps);
    MergeOutcome(cfg, p, info, ourNat);
    PursueOutcome(cfg, s, env, info.vip, Learn(cfg, p, info, ourNat));
  }

  // ---- the pings of an update

  ghost predicate Probes(q: Peer) { !HasWorking(q.eps) && q.strategy != RelayOnly && q.eps != [] }

  lemma {:induction false} ProbeSendsIff(cfg: Config, r: ProbeRound, env: Env, v: Vip, addrs: seq<SocketAddr>,
                                         n: nat, p: Packet)
    requires n <= |addrs|
    ensures p in Probe(cfg, r, env, v, addrs, n).sent <==>
            p in r.sent || exists i :: 0 <= i < n && env.sendOk(i) && IsPingTo(cfg, p, addrs[i], env.tx(i))
  {
    if n > 0 {
      ProbeSendsIff(cfg, r, env, v, addrs, n - 1, p);
    }
  }

  /** Our ping with this id to this address. */
  ghost predicate IsPingTo(cfg: Config, p: Packet, a: SocketAddr, tx: TxId) {
    p.to == SendAddr(cfg.macos, a) && p.msg.Ping? && IsOurs(cfg, p.msg.ping) && p.msg.ping.tx == tx
  }

  lemma {:induction false} ProbeStartsIff(cfg: Config, r: ProbeRound, env: Env, v: Vip, addrs: seq<SocketAddr>,
                                          n: nat, tx: TxId)
    requires n <= |addrs| && forall i, j :: 0 <= i < j ==> env.tx(i) != env.tx(j)
    ensures var q := Probe(cfg, r, env, v, addrs, n);
            && ((forall i :: 0 <= i < n && env.sendOk(i) ==> env.tx(i) != tx) ==>
                  (tx in q.pings <==> tx in r.pings) && (tx in r.pings ==> q.pings[tx] == r.pings[tx]))
            && (forall i :: 0 <= i < n && env.sendOk(i) && env.tx(i) == tx ==>
                  tx in q.pings && q.pings[tx] == Pending(addrs[i], v, env.now, 0, cfg.maxRetries))
  {
    if n > 0 {
      ProbeStartsIff(cfg, r, env, v, addrs, n - 1, tx);
    }
  }

  /** The packets of an update are pings: to every known address of a peer it leaves probed, if that send
      works. Each is outstanding afterwards with the address it went to, and no other ping changes. */
  lemma UpdateSendsIff(cfg: Config, s: Node, env: Env, info: PeerInfo, ourNat: Option<NatType>, p: Packet, tx: TxId)
    requires forall i, j :: 0 <= i < j ==> env.tx(i) != env.tx(j)
    ensures var e := Step(cfg, s, GotInfo(info, ourNat), env);
            info.vip in e.node.peers &&
            var q := e.node.peers[info.vip];
            && (p in e.sent <==>
                  Probes(q) && exists i ::
                    0 <= i < |q.eps| && env.sendOk(i) && IsPingTo(cfg, p, q.eps[i].addr, env.tx(i)))
            && (forall i :: Probes(q) && 0 <= i < |q.eps| && env.sendOk(i) && env.tx(i) == tx ==>
                  tx in e.node.pings
                  && e.node.pings[tx] == Pending(q.eps[i].addr, info.vip, env.now, 0, cfg.maxRetries))
            && ((forall i :: Probes(q) && 0 <= i < |q.eps| && env.sendOk(i) ==> env.tx(i) != tx) ==>
                  (tx in e.node.pings <==> tx in s.pings) && (tx in s.pings ==> e.node.pings[tx] == s.pings[tx]))
  {
    var v := info.vip;
    var p0 := Learn(cfg, Entry(s, info, ourNat), info, ourNat);
    var e := Pursue(cfg, s, env, v, p0);
    PursueOutcome(cfg, s, env, v, p0);
    var q := e.node.peers[v];
    if Probes(q) {
      var addrs := Addrs(p0.eps);
      var r := ProbeRound(p0.eps, s.pings, {});
      ProbeSendsIff(cfg, r, env, v, addrs, |addrs|, p);
      ProbeStartsIff(cfg, r, env, v, addrs, |addrs|, tx);
      assert forall i :: 0 <= i < |q.eps| ==> q.eps[i].addr == addrs[i];
    }
  }

  // ---- the tick

  /** The ping is sent again by a tick at this time. */
  ghost predicate SentAgain(cfg: Config, s: Node, env: Env, tx: TxId) {
    && tx in s.pings && env.now > s.pings[tx].sentAt + cfg.pingTimeout
    && s.pings[tx].retries < s.pings[tx].maxRetries && env.sendOk(tx)
  }

  lemma {:induction false} TickSomeSends(cfg: Config, s: Node, env: Env, order: seq<TxId>, n: nat, p: Packet)
    requires IsOrder(order, s.pings.Keys) && n <= |order|
    ensures p in TickSome(cfg, s, env, order, n).sent <==>
            exists i :: 0 <= i < n && SentAgain(cfg, s, env, order[i])
                        && IsPingTo(cfg, p, s.pings[order[i]].target, order[i])
  {
    if n > 0 {
      var u, tx := TickSome(cfg, s, env, order, n - 1).node, order[n - 1];
      TickSomeSends(cfg, s, env, order, n - 1, p);
      assert tx !in order[..n - 1];
      TickAges(cfg, s, env, order, n - 1, tx);
      TickOneSends(cfg, u, env, tx, p);
    }
  }

  lemma TickOneSends(cfg: Config, s: Node, env: Env, tx: TxId, p: Packet)
    ensures p in TickOne(cfg, s, env, tx).sent <==>
            SentAgain(cfg, s, env, tx) && IsPingTo(cfg, p, s.pings[tx].target, tx)
  {
  }

  /** A tick sends exactly the overdue pings again that have a retry left, each to its own target with its own
      id, if the send works. (Its other packets are the relay requests.) */
  lemma TickSendsIff(cfg: Config, s: Node, env: Env, order: seq<TxId>, p: Packet)
    requires IsOrder(order, s.pings.Keys) && !p.msg.Bind?
    ensures p in Step(cfg, s, Tick(order), env).sent <==>
            exists tx :: SentAgain(cfg, s, env, tx) && IsPingTo(cfg, p, s.pings[tx].target, tx)
  {
    TickSomeSends(cfg, s, env, order, |order|, p);
    forall tx | SentAgain(cfg, s, env, tx) && IsPingTo(cfg, p, s.pings[tx].target, tx)
      ensures exists i :: 0 <= i < |order| && order[i] == tx
    {
      assert tx in order;
    }
  }

  // t is s with other endpoints, states and pings, and another WireGuard table only without a relay.
  ghost predicate Ticked(cfg: Config, s: Node, t: Node) {
    && t.peers.Keys == s.peers.Keys && t.sessions == s.sessions && (cfg.relayEnabled ==> t.tun == s.tun)
    && forall v :: v in s.peers ==> t.peers[v] == s.peers[v].(eps := t.peers[v].eps, state := t.peers[v].state)
  }

  lemma TickOneTicks(cfg: Config, s: Node, env: Env, tx: TxId)
    ensures Ticked(cfg, s, TickOne(cfg, s, env, tx).node)
  {
  }

  lemma TicksChain(cfg: Config, s: Node, t: Node, u: Node)
    requires Ticked(cfg, s, t) && Ticked(cfg, t, u)
    ensures Ticked(cfg, s, u)
  {
  }

  lemma {:induction false} TickSomeTicks(cfg: Config, s: Node, env: Env, order: seq<TxId>, n: nat)
    requires n <= |order|
    ensures Ticked(cfg, s, TickSome(cfg, s, env, order, n).node)
  {
    if n > 0 {
      var t := TickSome(cfg, s, env, order, n - 1).node;
      TickSomeTicks(cfg, s, env, order, n - 1);
      TickOneTicks(cfg, t, env, order[n - 1]);
      TicksChain(cfg, s, t, TickOne(cfg, t, env, order[n - 1]).node);
    }
  }

  /** Apart from endpoints, states and pings a tick changes nothing, and WireGuard only without a relay. */
  lemma TickKeeps(cfg: Config, s: Node, env: Env, order: seq<TxId>)
    ensures var t := Step(cfg, s, Tick(order), env).node;
            && t.peers.Keys == s.peers.Keys && t.sessions == s.sessions && (cfg.relayEnabled ==> t.tun == s.tun)
            && forall v :: v in s.peers ==>
                 t.peers[v] == s.peers[v].(eps := t.peers[v].eps, state := t.peers[v].state)
  {
    TickSomeTicks(cfg, s, env, order, |order|);
  }

  /** Without a relay, the give-up that moves a peer to Failed configures WireGuard with the best endpoint
      there is, or with none; any other look at a ping leaves WireGuard alone. */
  lemma LastResortConfigures(cfg: Config, s: Node, env: Env, tx: TxId)
    ensures var t := Step(cfg, s, Tick([tx]), env).node;
            if tx in s.pings && s.pings[tx].vip in s.peers && !cfg.relayEnabled
               && env.now > s.pings[tx].sentAt + cfg.pingTimeout && s.pings[tx].retries >= s.pings[tx].maxRetries
               && s.pings[tx].vip in t.peers && NeedsRelay(t.peers[s.pings[tx].vip].eps)
            then
              var q := t.peers[s.pings[tx].vip];
              && q.state == ConnState.Failed
              && Configures(s, t, q.key, q.vip, q.vip6,
                            match cfg.best(q.eps) case None => None case Some(e) => Some(e.addr))
            else t.tun == s.tun
  {
    var t := Step(cfg, s, Tick([tx]), env).node;
    assert TickSome(cfg, s, env, [tx], 0).node == s;
    assert t == TickOne(cfg, s, env, tx).node;
    if tx in s.pings && s.pings[tx].vip in t.peers {
      var q := t.peers[s.pings[tx].vip];
      if t.tun != s.tun {
        ConfigureConfigures(s, t, env, q, BestAddr(cfg, q));
      }
    }
  }

  // ---- everything else

  /** A removal takes exactly the listed peers away and a disconnect everything; neither sends anything. */
  lemma DeparturesOutcome(cfg: Config, s: Node, env: Env, vips: set<Vip>)
    ensures var e := Step(cfg, s, GotRemoved(vips), env);
            && e.sent == {} && e.node == s.(peers := e.node.peers)
            && (forall v :: v in e.node.peers <==> v in s.peers && v !in vips)
            && (forall v :: v in e.node.peers ==> e.node.peers[v] == s.peers[v])
    ensures var e := Step(cfg, s, Disconnect, env);
            && e.sent == {} && e.node.peers == map[] && e.node.pings == map[] && e.node.sessions == map[]
            && e.node.tun.known == map[] && e.node.tun.interface == map[]
  {
  }

  /** A handshake is noted at its tunnel, if there is one, and changes nothing else. */
  lemma HandshakeOutcome(cfg: Config, s: Node, env: Env, key: Key, at: nat)
    ensures var e := Step(cfg, s, WgHandshake(key, at), env);
            var t := e.node;
            && e.sent == {} && t == s.(tun := t.tun) && t.tun == s.tun.(interface := t.tun.interface)
            && t.tun.interface.Keys == s.tun.interface.Keys
            && forall k :: k in s.tun.interface ==>
                 t.tun.interface[k] == if k == key then s.tun.interface[k].(handshake := Some(at))
                                       else s.tun.interface[k]
  {
  }

  // ---- WireGuard over whole runs

  ghost function LastOf(calls: seq<Assign>, k: Key): Option<Assign> {
    if calls == [] then None
    else
      var n := |calls| - 1;
      if calls[n].peer.key == k then Some(calls[n]) else LastOf(calls[..n], k)
  }

  /** The last call for k since the last disconnect. */
  ghost function LastCall(cfg: Config, run: seq<Input>, k: Key): Option<Assign> {
    if run == [] || run[|run| - 1].ev.Disconnect? then None
    else
      var n := |run| - 1;
      var last := LastOf(StepCalls(cfg, Exec(cfg, START, run[..n]), run[n].ev, run[n].env), k);
      if last.Some? then last else LastCall(cfg, run[..n], k)
  }

  // What these calls leave remembered for k.
  ghost predicate Remembers(known: map<Key, PeerConfig>, last: Option<Assign>, k: Key) {
    match last
    case None => k !in known
    case Some(c) => ConfiguredAs(known, k, c.peer.vip, c.peer.vip6, c.endpoint)
  }

  lemma {:induction false} CallsRemember(t: TunState, env: Env, calls: seq<Assign>, k: Key)
    ensures var known, last := CallAll(t, env, calls).known, LastOf(calls, k);
            if last.Some? then Remembers(known, last, k)
            else (k in known <==> k in t.known) && (k in known ==> known[k] == t.known[k])
  {
    if calls != [] {
      CallsRemember(t, env, calls[..|calls| - 1], k);
    }
  }

  /** In every reachable state what is remembered for a key is what its last call said, endpoint and allowed
      addresses: of a peer by its own ping or answer the best address, of a relayed one the relay, of a
      probed one the first address, as the outcomes above say of each step. */
  lemma {:induction false} RemembersLastCall(cfg: Config, run: seq<Input>, k: Key)
    ensures Remembers(Exec(cfg, START, run).tun.known, LastCall(cfg, run, k), k)
  {
    if run != [] && !run[|run| - 1].ev.Disconnect? {
      var n := |run| - 1;
      var s := Exec(cfg, START, run[..n]);
      RemembersLastCall(cfg, run[..n], k);
      if !run[n].ev.WgHandshake? {
        StepMakes(cfg, s, run[n].ev, run[n].env);
        CallsRemember(s.tun, run[n].env, StepCalls(cfg, s, run[n].ev, run[n].env), k);
      }
    }
  }
}
