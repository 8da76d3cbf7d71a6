/** The branches of the dispatcher loop as functions from a node and one input to the node after it
    and the packets sent (crates/omni-core/src/manager.rs:1629-2560). A step is atomic. */
module DispatcherSpec {
  import opened Common
  import opened Addresses
  import opened Endpoints
  import opened Peers
  import opened Tunnel

  datatype Pending = Pending(target: SocketAddr, vip: Vip, sentAt: nat, retries: nat, maxRetries: nat)

  datatype Node = Node(
    peers: map<Vip, Peer>,
    pings: map<TxId, Pending>,
    sessions: map<Key, SessionId>,
    tun: TunState)

  const START: Node := Node(map[], map[], map[], EMPTY)

  // What the outside world decides during one step: the clock, the random transaction ids, which
  // sends succeed and which keys the WireGuard interface accepts.
  datatype Env = Env(now: nat, tx: nat -> TxId, sendOk: nat -> bool, bindOk: Vip -> bool, wgOk: Key -> bool)

  datatype PingMsg = PingMsg(tx: TxId, senderKey: Key, senderVip: Vip, senderVip6: Option<Vip6>)
  datatype PongMsg = PongMsg(tx: TxId, responderKey: Key)
  datatype AckMsg = AckMsg(success: bool, session: Option<SessionId>, targetKey: Option<Key>,
                           relayEndpoint: Option<SocketAddr>, transparent: bool)
  datatype PeerInfo = PeerInfo(vip: Vip, vip6: Option<Vip6>, endpoint: Option<SocketAddr>, key: Key,
                               natType: Option<NatType>, mapped: Option<SocketAddr>)

  datatype Msg = Ping(ping: PingMsg) | Pong(pong: PongMsg) | Bind(targetKey: Key, targetVip: Vip)
  datatype Packet = Packet(to: SocketAddr, msg: Msg)
  datatype Effect = Effect(node: Node, sent: set<Packet>)

  // The order in which a hash map that does not change in between is iterated.
  predicate IsOrder<T(==)>(order: seq<T>, keys: set<T>) {
    && (forall i :: 0 <= i < |order| ==> order[i] in keys)
    && (forall k :: k in keys ==> k in order)
    && (forall i, j :: 0 <= i < j < |order| ==> order[i] != order[j])
  }

  function AllowedIps(vip: Vip, vip6: Option<Vip6>): seq<AllowedIp> {
    [Host4(vip)] + if vip6.Some? then [Host6(vip6.value)] else []
  }

  function BestAddr(cfg: Config, p: Peer): Option<SocketAddr> {
    match cfg.best(p.eps) case None => None case Some(e) => Some(e.addr)
  }

  function Configure(t: TunState, env: Env, p: Peer, endpoint: Option<SocketAddr>): TunState {
    AddPeer(t, p.key, PeerConfig(endpoint, AllowedIps(p.vip, p.vip6)), env.now, env.wgOk)
  }

  function ConfigureBest(cfg: Config, t: TunState, env: Env, p: Peer): TunState {
    if BestAddr(cfg, p).Some? then Configure(t, env, p, BestAddr(cfg, p)) else t
  }

  function OurPing(cfg: Config, tx: TxId): Msg { Ping(PingMsg(tx, cfg.ourKey, cfg.ourVip, cfg.ourVip6)) }

  function Send(cfg: Config, ok: bool, to: SocketAddr, m: Msg): set<Packet> {
    if ok then {Packet(SendAddr(cfg.macos, to), m)} else {}
  }

  // ---- DISCO_PING

  function Discover(m: PingMsg, src: SocketAddr, now: nat): Peer {
    NewPeer(m.senderVip, m.senderVip6, m.senderKey, Some(src), None, Direct)
      .AddEndpoint(src, DirectProbe).(lastSeen := Some(now), state := DirectTry)
  }

  /** Send 0 answers the ping; send 1 is the ping back to a peer that was not known. */
  function OnPing(cfg: Config, s: Node, env: Env, raw: SocketAddr, m: PingMsg): Effect {
    var src := Normalize(raw);
    var pong := Send(cfg, env.sendOk(0), src, Pong(PongMsg(m.tx, cfg.ourKey)));
    if m.senderVip in s.peers then
      var p := s.peers[m.senderVip];
      if m.senderKey != p.key then Effect(s, pong)
      else
        var q := p.AddEndpoint(src, DirectProbe).(lastSeen := Some(env.now));
        Effect(s.(peers := s.peers[m.senderVip := q], tun := ConfigureBest(cfg, s.tun, env, q)), pong)
    else
      var q := Discover(m, src, env.now);
      var s1 := s.(peers := s.peers[m.senderVip := q], tun := Configure(s.tun, env, q, Some(src)));
      if env.sendOk(1) then
        Effect(s1.(pings := s1.pings[env.tx(1) := Pending(src, m.senderVip, env.now, 0, cfg.maxRetries)]),
               pong + Send(cfg, true, src, OurPing(cfg, env.tx(1))))
      else Effect(s1, pong)
  }

  // ---- DISCO_PONG

  /** The round-trip time; a clock that went backwards counts as none. */
  function Elapsed(p: Pending, now: nat): nat { if p.sentAt <= now then now - p.sentAt else 0 }

  function OnPong(cfg: Config, s: Node, env: Env, raw: SocketAddr, m: PongMsg): Effect {
    if m.tx !in s.pings then Effect(s, {})
    else
      var pending := s.pings[m.tx];
      var s1 := s.(pings := s.pings - {m.tx});
      if pending.vip !in s.peers || m.responderKey != s.peers[pending.vip].key then Effect(s1, {})
      else
        var src := Normalize(raw);
        var p := s.peers[pending.vip].AddEndpoint(src, DirectProbe);
        var q := p.RecordPong(cfg, src, env.now, Elapsed(pending, env.now));
        Effect(s1.(peers := s.peers[pending.vip := q], tun := ConfigureBest(cfg, s.tun, env, q)), {})
  }

  // ---- RELAY_BIND_ACK

  function FirstRelayTry(peers: map<Vip, Peer>, order: seq<Vip>): Option<Vip> {
    if order == [] then None
    else if order[0] in peers && peers[order[0]].state == RelayTry then Some(order[0])
    else FirstRelayTry(peers, order[1..])
  }

  function FirstWithKey(peers: map<Vip, Peer>, order: seq<Vip>, key: Key): Option<Vip> {
    if order == [] then None
    else if order[0] in peers && peers[order[0]].key == key then Some(order[0])
    else FirstWithKey(peers, order[1..], key)
  }

  function AckTarget(s: Node, m: AckMsg, order: seq<Vip>): Option<Vip> {
    match m.targetKey
    case Some(k) => FirstWithKey(s.peers, order, k)
    case None =>
      match FirstRelayTry(s.peers, order)
      case None => None
      case Some(v) =>
        if m.success && v in s.peers then FirstWithKey(s.peers, order, s.peers[v].key) else Some(v)
  }

  function OnRelayAck(cfg: Config, s: Node, env: Env, raw: SocketAddr, m: AckMsg, order: seq<Vip>): Effect {
    var target := AckTarget(s, m, order);
    if (m.success && m.session.None?) || target.None? || target.value !in s.peers
       || s.peers[target.value].state != RelayTry then Effect(s, {})
    else
      var v, p := target.value, s.peers[target.value];
      if !m.success then Effect(s.(peers := s.peers[v := p.(state := ConnState.Failed)]), {})
      else
        var q := p.MarkRelayed(env.now);
        var endpoint := if m.transparent then Some(Normalize(raw))
                        else if m.relayEndpoint.Some? then m.relayEndpoint else cfg.relayServer;
        Effect(s.(peers := s.peers[v := q],
                  sessions := s.sessions[p.key := m.session.value],
                  tun := if endpoint.Some? then Configure(s.tun, env, q, endpoint) else s.tun), {})
  }

  // ---- PeerUpdate from signaling

  predicate EndpointChanged(cfg: Config, p: Peer, endpoint: SocketAddr) {
    BestAddr(cfg, p).Some? && BestAddr(cfg, p).value != endpoint
  }

  predicate Resets(cfg: Config, p: Peer, info: PeerInfo) {
    info.endpoint.Some? && EndpointChanged(cfg, p, info.endpoint.value) && HasWorking(p.eps)
  }

  function ResetPeer(p: Peer): Peer {
    p.(eps := AllFailed(p.eps), state := Init, usingRelay := false, lastSeen := None)
  }

  /** The peer after an update was merged in and before any connection attempt. */
  function Learn(cfg: Config, p: Peer, info: PeerInfo, ourNat: Option<NatType>): Peer {
    var p0 := if Resets(cfg, p, info) then ResetPeer(p) else p;
    var p1 := if info.endpoint.Some? then p0.AddEndpoint(info.endpoint.value, Nucleus) else p0;
    var p2 := if info.mapped.Some? then p1.AddEndpoint(info.mapped.value, PortMap) else p1;
    var p3 := p2.(vip6 := info.vip6);
    if p3.natType != info.natType then p3.UpdateStrategy(ourNat, info.natType) else p3
  }

  function Entry(s: Node, info: PeerInfo, ourNat: Option<NatType>): Peer {
    if info.vip in s.peers then s.peers[info.vip]
    else NewPeer(info.vip, info.vip6, info.key, info.endpoint, info.natType, SelectStrategy(ourNat, info.natType))
  }

  datatype ProbeRound = ProbeRound(eps: seq<Endpoint>, pings: map<TxId, Pending>, sent: set<Packet>)

  /** Pings to the first n addresses of `addrs`; send i goes to addrs[i]. */
  function Probe(cfg: Config, start: ProbeRound, env: Env, vip: Vip, addrs: seq<SocketAddr>, n: nat): ProbeRound
    requires n <= |addrs|
  {
    if n == 0 then start
    else
      var r, i := Probe(cfg, start, env, vip, addrs, n - 1), n - 1;
      if !env.sendOk(i) then r
      else ProbeRound(MarkProbing(r.eps, addrs[i]),
                        r.pings[env.tx(i) := Pending(addrs[i], vip, env.now, 0, cfg.maxRetries)],
                        r.sent + Send(cfg, true, addrs[i], OurPing(cfg, env.tx(i))))
  }

  function OnPeerInfo(cfg: Config, s: Node, env: Env, info: PeerInfo, ourNat: Option<NatType>): Effect {
    Pursue(cfg, s, env, info.vip, Learn(cfg, Entry(s, info, ourNat), info, ourNat))
  }

  /** What an update does with the peer it was merged into: refresh WireGuard, wait for the relay, or probe. */
  function Pursue(cfg: Config, s: Node, env: Env, v: Vip, p: Peer): Effect {
    if HasWorking(p.eps) then
      Effect(s.(peers := s.peers[v := p], tun := ConfigureBest(cfg, s.tun, env, p)), {})
    else if p.strategy == RelayOnly then
      Effect(s.(peers := s.peers[v := p.(state := RelayTry)]), {})
    else if p.strategy == Direct && p.eps == [] then
      Effect(s.(peers := s.peers[v := p], tun := Configure(s.tun, env, p, None)), {})
    else
      var addrs := Addrs(p.eps);
      var r := Probe(cfg, ProbeRound(p.eps, s.pings, {}), env, v, addrs, |addrs|);
      var t := if p.eps == [] then s.tun else Configure(s.tun, env, p, Some(addrs[0]));
      Effect(s.(peers := s.peers[v := p.(eps := r.eps, state := DirectTry)], pings := r.pings, tun := t), r.sent)
  }

  function OnRemoved(s: Node, vips: set<Vip>): Effect { Effect(s.(peers := s.peers - vips), {}) }

  // ---- 1 s tick

  predicate Overdue(cfg: Config, p: Pending, now: nat) { now > p.sentAt + cfg.pingTimeout }

  /** The peer after its ping to `target` ran out of retries. */
  function Exhaust(cfg: Config, p: Peer, target: SocketAddr): Peer {
    var q := p.MarkEndpointFailed(target);
    if NeedsRelay(q.eps) then q.(state := if cfg.relayEnabled then RelayTry else ConnState.Failed) else q
  }

  function TickOne(cfg: Config, s: Node, env: Env, tx: TxId): Effect {
    if tx !in s.pings || !Overdue(cfg, s.pings[tx], env.now) then Effect(s, {})
    else
      var d := s.pings[tx];
      if d.retries < d.maxRetries then
        Effect(s.(pings := s.pings[tx := d.(retries := d.retries + 1, sentAt := env.now)],
                  peers := if d.vip !in s.peers then s.peers
                           else s.peers[d.vip := s.peers[d.vip].(eps := MarkProbing(s.peers[d.vip].eps, d.target))]),
               Send(cfg, env.sendOk(tx), d.target, OurPing(cfg, tx)))
      else if d.vip !in s.peers then Effect(s.(pings := s.pings - {tx}), {})
      else
        var q := Exhaust(cfg, s.peers[d.vip], d.target);
        Effect(s.(pings := s.pings - {tx},
                  peers := s.peers[d.vip := q],
                  tun := if NeedsRelay(q.eps) && !cfg.relayEnabled then Configure(s.tun, env, q, BestAddr(cfg, q))
                         else s.tun), {})
  }

  /** The first n pings of `order` have been looked at. */
  function TickSome(cfg: Config, s: Node, env: Env, order: seq<TxId>, n: nat): Effect
    requires n <= |order|
  {
    if n == 0 then Effect(s, {})
    else
      var e := TickSome(cfg, s, env, order, n - 1);
      var f := TickOne(cfg, e.node, env, order[n - 1]);
      Effect(f.node, e.sent + f.sent)
  }

  function Binds(cfg: Config, peers: map<Vip, Peer>, env: Env): set<Packet> {
    if cfg.relayEnabled && cfg.relayServer.Some? then
      set v | v in peers && peers[v].state == RelayTry && env.bindOk(v)
        :: Packet(SendAddr(cfg.macos, cfg.relayServer.value), Bind(peers[v].key, v))
    else {}
  }

  function OnTick(cfg: Config, s: Node, env: Env, order: seq<TxId>): Effect {
    var e := TickSome(cfg, s, env, order, |order|);
    Effect(e.node, e.sent + Binds(cfg, e.node.peers, env))
  }

  // ---- inputs and runs

  datatype Event =
    | GotPing(src: SocketAddr, ping: PingMsg)
    | GotPong(src: SocketAddr, pong: PongMsg)
    | GotAck(src: SocketAddr, ack: AckMsg, vips: seq<Vip>)
    | GotInfo(info: PeerInfo, ourNat: Option<NatType>)
    | GotRemoved(removed: set<Vip>)
    | Tick(order: seq<TxId>)
    | WgHandshake(key: Key, at: nat)
    | Disconnect

  function Step(cfg: Config, s: Node, ev: Event, env: Env): Effect {
    match ev
    case GotPing(src, m) => OnPing(cfg, s, env, src, m)
    case GotPong(src, m) => OnPong(cfg, s, env, src, m)
    case GotAck(src, m, vips) => OnRelayAck(cfg, s, env, src, m, vips)
    case GotInfo(info, ourNat) => OnPeerInfo(cfg, s, env, info, ourNat)
    case GotRemoved(vips) => OnRemoved(s, vips)
    case Tick(order) => OnTick(cfg, s, env, order)
    case WgHandshake(key, at) => Effect(s.(tun := Handshake(s.tun, key, at)), {})
    case Disconnect => Effect(START, {})
  }

  datatype Input = Input(ev: Event, env: Env)

  /** The node after a run from `s`. */
  function Exec(cfg: Config, s: Node, run: seq<Input>): Node {
    if run == [] then s
    else Step(cfg, Exec(cfg, s, run[..|run| - 1]), run[|run| - 1].ev, run[|run| - 1].env).node
  }
}
