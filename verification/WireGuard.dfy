/** The WireGuard table over whole runs: which key serves a virtual address, in the peers that `add_peer`
    remembers and in the interface itself, and what departures and refusals do to it
    (crates/omni-core/src/manager.rs:1684-2499, crates/omni-tun/src/lib.rs:797-862). */
module WireGuard {
  import opened Common
  import opened Addresses
  import opened Endpoints
  import opened Peers
  import opened Tunnel
  import opened DispatcherSpec
  import opened DispatcherSafety
  import opened DispatcherHistory

  /** v/32 is among the addresses remembered for k. */
  ghost predicate Serves(known: map<Key, PeerConfig>, k: Key, v: Vip) { k in known && Host4(v) in known[k].ips }

  /** The interface routes v/32 to k. */
  ghost predicate Routes(t: map<Key, Tunn>, k: Key, v: Vip) { k in t && Host4(v) in t[k].config.ips }

  ghost predicate Held(t: TunState, k: Key, v: Vip) { Serves(t.known, k, v) || Routes(t.interface, k, v) }

  // ---- the calls of `add_peer` that a step makes

  /** One call: the peer that is configured, and the endpoint it gets. */
  datatype Assign = Assign(peer: Peer, endpoint: Option<SocketAddr>)

  /** The peer that an answer was recorded in. */
  function Answered(cfg: Config, s: Node, env: Env, src: SocketAddr, m: PongMsg): Peer
    requires m.tx in s.pings && s.pings[m.tx].vip in s.peers
  {
    var a := Normalize(src);
    s.peers[s.pings[m.tx].vip].AddEndpoint(a, DirectProbe).RecordPong(cfg, a, env.now, Elapsed(s.pings[m.tx], env.now))
  }

  /** The calls of giving up one ping: the last resort without a relay. */
  ghost function TickOneCalls(cfg: Config, s: Node, env: Env, tx: TxId): seq<Assign> {
    if tx in s.pings && Overdue(cfg, s.pings[tx], env.now) && s.pings[tx].retries >= s.pings[tx].maxRetries
       && s.pings[tx].vip in s.peers then
      var q := Exhaust(cfg, s.peers[s.pings[tx].vip], s.pings[tx].target);
      if NeedsRelay(q.eps) && !cfg.relayEnabled then [Assign(q, BestAddr(cfg, q))] else []
    else []
  }

  ghost function TickCalls(cfg: Config, s: Node, env: Env, order: seq<TxId>, n: nat): seq<Assign>
    requires n <= |order|
  {
    if n == 0 then []
    else TickCalls(cfg, s, env, order, n - 1)
         + TickOneCalls(cfg, TickSome(cfg, s, env, order, n - 1).node, env, order[n - 1])
  }

  ghost function BestCall(cfg: Config, p: Peer): seq<Assign> {
    if BestAddr(cfg, p).Some? then [Assign(p, BestAddr(cfg, p))] else []
  }

  ghost function PursueCalls(cfg: Config, p: Peer): seq<Assign> {
    if HasWorking(p.eps) then BestCall(cfg, p)
    else if p.strategy == RelayOnly then []
    else if p.eps != [] then [Assign(p, Some(Addrs(p.eps)[0]))]
    else if p.strategy == Direct then [Assign(p, None)]
    else []
  }

  ghost function PingCalls(cfg: Config, s: Node, env: Env, src: SocketAddr, m: PingMsg): seq<Assign> {
    var a := Normalize(src);
    if m.senderVip !in s.peers then [Assign(Discover(m, a, env.now), Some(a))]
    else if m.senderKey != s.peers[m.senderVip].key then []
    else BestCall(cfg, s.peers[m.senderVip].AddEndpoint(a, DirectProbe).(lastSeen := Some(env.now)))
  }

  ghost function PongCalls(cfg: Config, s: Node, env: Env, src: SocketAddr, m: PongMsg): seq<Assign> {
    if m.tx in s.pings && s.pings[m.tx].vip in s.peers && m.responderKey == s.peers[s.pings[m.tx].vip].key then
      BestCall(cfg, Answered(cfg, s, env, src, m))
    else []
  }

  ghost function AckCalls(cfg: Config, s: Node, env: Env, src: SocketAddr, m: AckMsg, order: seq<Vip>): seq<Assign> {
    var target := AckTarget(s, m, order);
    if m.success && m.session.Some? && target.Some? && target.value in s.peers
       && s.peers[target.value].state == RelayTry then
      var endpoint := if m.transparent then Some(Normalize(src))
                      else if m.relayEndpoint.Some? then m.relayEndpoint else cfg.relayServer;
      if endpoint.Some? then [Assign(s.peers[target.value].MarkRelayed(env.now), endpoint)] else []
    else []
  }

  ghost function StepCalls(cfg: Config, s: Node, ev: Event, env: Env): seq<Assign> {
    match ev
    case GotPing(src, m) => PingCalls(cfg, s, env, src, m)
    case GotPong(src, m) => PongCalls(cfg, s, env, src, m)
    case GotAck(src, m, order) => AckCalls(cfg, s, env, src, m, order)
    case GotInfo(info, ourNat) => PursueCalls(cfg, Learn(cfg, Entry(s, info, ourNat), info, ourNat))
    case Tick(order) => TickCalls(cfg, s, env, order, |order|)
    case _ => []
  }

  /** The WireGuard table after these calls. */
  ghost function CallAll(t: TunState, env: Env, calls: seq<Assign>): TunState {
    if calls == [] then t
    else
      var n := |calls| - 1;
      Configure(CallAll(t, env, calls[..n]), env, calls[n].peer, calls[n].endpoint)
  }

  // t has the table that these calls leave, and (in a safe table) each was for an entry of t, with its key.
  ghost predicate Makes(s: Node, t: Node, env: Env, calls: seq<Assign>) {
    t.tun == CallAll(s.tun, env, calls) && (Safe(s) ==> CalledFor(t, calls))
  }

  ghost predicate CalledFor(t: Node, calls: seq<Assign>) {
    forall i :: 0 <= i < |calls| ==> IsEntry(t, calls[i].peer.vip, calls[i].peer.key)
  }

  ghost predicate IsEntry(t: Node, v: Vip, k: Key) { v in t.peers && t.peers[v].key == k }

  lemma OneCall(t: TunState, env: Env, c: Assign)
    ensures CallAll(t, env, [c]) == Configure(t, env, c.peer, c.endpoint)
    ensures CallAll(t, env, []) == t
  {
    assert [c][..0] == [];
    assert CallAll(t, env, [c]) == Configure(CallAll(t, env, [c][..0]), env, c.peer, c.endpoint);
  }

  lemma MoreCalls(t: TunState, env: Env, calls: seq<Assign>, more: seq<Assign>)
    requires |more| <= 1
    ensures CallAll(t, env, calls + more) == CallAll(CallAll(t, env, calls), env, more)
  {
    if more == [] {
      assert calls + more == calls;
    } else {
      assert (calls + more)[..|calls|] == calls;
      OneCall(CallAll(t, env, calls), env, more[0]);
      assert more == [more[0]];
    }
  }

  lemma TickOneMakes(cfg: Config, s: Node, env: Env, tx: TxId)
    ensures Makes(s, TickOne(cfg, s, env, tx).node, env, TickOneCalls(cfg, s, env, tx))
    ensures forall v, k :: IsEntry(s, v, k) ==> IsEntry(TickOne(cfg, s, env, tx).node, v, k)
  {
    if tx in s.pings && s.pings[tx].vip in s.peers {
      var p := s.peers[s.pings[tx].vip];
      assert Safe(s) ==> PeerSafe(s.pings[tx].vip, p, s.sessions, s.tun.known);
      var q := Exhaust(cfg, p, s.pings[tx].target);
      OneCall(s.tun, env, Assign(q, BestAddr(cfg, q)));
    }
  }

  ghost predicate TickTable(cfg: Config, s: Node, env: Env, order: seq<TxId>, n: nat)
    requires n <= |order|
  {
    TickSome(cfg, s, env, order, n).node.tun == CallAll(s.tun, env, TickCalls(cfg, s, env, order, n))
  }

  // One more ping of a tick adds its calls at the end.
  lemma TickOneMore(cfg: Config, s: Node, env: Env, order: seq<TxId>, n: nat)
    requires 0 < n <= |order| && TickTable(cfg, s, env, order, n - 1)
    ensures TickTable(cfg, s, env, order, n)
  {
    var u, calls := TickSome(cfg, s, env, order, n - 1).node, TickCalls(cfg, s, env, order, n - 1);
    var one := TickOneCalls(cfg, u, env, order[n - 1]);
    TickOneMakes(cfg, u, env, order[n - 1]);
    MoreCalls(s.tun, env, calls, one);
    assert TickCalls(cfg, s, env, order, n) == calls + one;
  }

  lemma {:induction false} TickMakesCalls(cfg: Config, s: Node, env: Env, order: seq<TxId>, n: nat)
    requires n <= |order|
    ensures TickTable(cfg, s, env, order, n)
  {
    if n > 0 {
      TickMakesCalls(cfg, s, env, order, n - 1);
      TickOneMore(cfg, s, env, order, n);
    }
  }

  lemma {:induction false} TickCallsForEntries(cfg: Config, s: Node, env: Env, order: seq<TxId>, n: nat)
    requires Safe(s) && n <= |order|
    ensures CalledFor(TickSome(cfg, s, env, order, n).node, TickCalls(cfg, s, env, order, n))
  {
    if n > 0 {
      var u := TickSome(cfg, s, env, order, n - 1).node;
      TickCallsForEntries(cfg, s, env, order, n - 1);
      TickIsSafe(cfg, s, env, order, n - 1);
      TickOneMakes(cfg, u, env, order[n - 1]);
    }
  }

  lemma TickMakes(cfg: Config, s: Node, env: Env, order: seq<TxId>)
    ensures Makes(s, OnTick(cfg, s, env, order).node, env, TickCalls(cfg, s, env, order, |order|))
  {
    TickMakesCalls(cfg, s, env, order, |order|);
    if Safe(s) {
      TickCallsForEntries(cfg, s, env, order, |order|);
    }
  }

  lemma PingMakes(cfg: Config, s: Node, env: Env, src: SocketAddr, m: PingMsg)
    ensures Makes(s, OnPing(cfg, s, env, src, m).node, env, PingCalls(cfg, s, env, src, m))
  {
    var u, a := m.senderVip, Normalize(src);
    if u in s.peers {
      assert Safe(s) ==> PeerSafe(u, s.peers[u], s.sessions, s.tun.known);
      var q := s.peers[u].AddEndpoint(a, DirectProbe).(lastSeen := Some(env.now));
      OneCall(s.tun, env, Assign(q, BestAddr(cfg, q)));
    } else {
      OneCall(s.tun, env, Assign(Discover(m, a, env.now), Some(a)));
    }
  }

  lemma PongMakes(cfg: Config, s: Node, env: Env, src: SocketAddr, m: PongMsg)
    ensures Makes(s, OnPong(cfg, s, env, src, m).node, env, PongCalls(cfg, s, env, src, m))
  {
    if m.tx in s.pings && s.pings[m.tx].vip in s.peers {
      var p, q := s.peers[s.pings[m.tx].vip], Answered(cfg, s, env, src, m);
      assert Safe(s) ==> PeerSafe(s.pings[m.tx].vip, p, s.sessions, s.tun.known);
      assert q.key == p.key && q.vip == p.vip;
      OneCall(s.tun, env, Assign(q, BestAddr(cfg, q)));
    }
  }

  lemma AckMakes(cfg: Config, s: Node, env: Env, src: SocketAddr, m: AckMsg, order: seq<Vip>)
    ensures Makes(s, OnRelayAck(cfg, s, env, src, m, order).node, env, AckCalls(cfg, s, env, src, m, order))
  {
    var target := AckTarget(s, m, order);
    if target.Some? && target.value in s.peers {
      var p := s.peers[target.value];
      assert Safe(s) ==> PeerSafe(target.value, p, s.sessions, s.tun.known);
      forall endpoint ensures CallAll(s.tun, env, [Assign(p.MarkRelayed(env.now), endpoint)])
                              == Configure(s.tun, env, p.MarkRelayed(env.now), endpoint) {
        OneCall(s.tun, env, Assign(p.MarkRelayed(env.now), endpoint));
      }
    }
  }

  lemma PursueMakes(cfg: Config, s: Node, env: Env, u: Vip, p: Peer)
    requires Safe(s) ==> p.vip == u
    ensures Makes(s, Pursue(cfg, s, env, u, p).node, env, PursueCalls(cfg, p))
  {
    PursueKeeps(cfg, s, env, u, p, u);
    OneCall(s.tun, env, Assign(p, BestAddr(cfg, p)));
    OneCall(s.tun, env, Assign(p, None));
    if p.eps != [] {
      OneCall(s.tun, env, Assign(p, Some(Addrs(p.eps)[0])));
    }
  }

  lemma LearnKeepsKey(cfg: Config, s: Node, info: PeerInfo, ourNat: Option<NatType>)
    ensures Learn(cfg, Entry(s, info, ourNat), info, ourNat).key == Entry(s, info, ourNat).key
    ensures Safe(s) ==> Learn(cfg, Entry(s, info, ourNat), info, ourNat).vip == info.vip
  {
    if Safe(s) {
      EntryIsSafe(s, info, ourNat);
    }
  }

  // What a step does to the table are its calls; a handshake is none.
  lemma StepMakes(cfg: Config, s: Node, ev: Event, env: Env)
    requires !ev.Disconnect? && !ev.WgHandshake?
    ensures Makes(s, Step(cfg, s, ev, env).node, env, StepCalls(cfg, s, ev, env))
  {
    match ev
    case GotPing(src, m) => PingMakes(cfg, s, env, src, m);
    case GotPong(src, m) => PongMakes(cfg, s, env, src, m);
    case GotAck(src, m, vips) => AckMakes(cfg, s, env, src, m, vips);
    case GotInfo(info, ourNat) =>
      LearnKeepsKey(cfg, s, info, ourNat);
      PursueMakes(cfg, s, env, info.vip, Learn(cfg, Entry(s, info, ourNat), info, ourNat));
    case GotRemoved(vips) =>
    case Tick(order) => TickMakes(cfg, s, env, order);
  }

  // An entry leaves the table only by a removal, and never changes its key.
  lemma EntriesStay(cfg: Config, s: Node, ev: Event, env: Env, v: Vip, k: Key)
    requires IsEntry(s, v, k) && !ev.Disconnect? && (ev.GotRemoved? ==> v !in ev.removed)
    ensures IsEntry(Step(cfg, s, ev, env).node, v, k)
  {
    OnlyAnAnswerConnects(cfg, s, ev, env, v);
    match ev
    case GotPing(src, m) =>
    case GotPong(src, m) =>
    case GotAck(src, m, vips) =>
    case GotInfo(info, ourNat) =>
      PursueKeeps(cfg, s, env, info.vip, Learn(cfg, Entry(s, info, ourNat), info, ourNat), v);
    case GotRemoved(vips) =>
    case Tick(order) => TickIsCalm(cfg, s, env, order, |order|, v);
    case WgHandshake(key, at) =>
  }

  // ---- what calls do to the table

  lemma {:induction false} CallsHold(t: TunState, env: Env, calls: seq<Assign>, k: Key, v: Vip)
    requires Held(CallAll(t, env, calls), k, v) && !Held(t, k, v)
    ensures exists i :: 0 <= i < |calls| && calls[i].peer.vip == v && calls[i].peer.key == k
  {
    if calls != [] {
      var n := |calls| - 1;
      var c := calls[n].peer;
      assert Host4(v) in AllowedIps(c.vip, c.vip6) ==> v == c.vip;
      if !(c.vip == v && c.key == k) {
        CallsHold(t, env, calls[..n], k, v);
        var i :| 0 <= i < n && calls[..n][i].peer.vip == v && calls[..n][i].peer.key == k;
        assert calls[i].peer.vip == v;
      }
    }
  }

  /** The address of the last of these calls for k. */
  ghost function LastVip(calls: seq<Assign>, k: Key): Option<Vip> {
    if calls == [] then None
    else
      var n := |calls| - 1;
      if calls[n].peer.key == k then Some(calls[n].peer.vip) else LastVip(calls[..n], k)
  }

  lemma {:induction false} CallsServe(t: TunState, env: Env, calls: seq<Assign>, k: Key, v: Vip)
    ensures var last := LastVip(calls, k);
            Serves(CallAll(t, env, calls).known, k, v) <==>
            if last.Some? then last == Some(v) else Serves(t.known, k, v)
  {
    if calls != [] {
      var n := |calls| - 1;
      var c := calls[n].peer;
      CallsServe(t, env, calls[..n], k, v);
      assert AllowedIps(c.vip, c.vip6)[0] == Host4(c.vip);
      assert Host4(v) in AllowedIps(c.vip, c.vip6) <==> v == c.vip;
    }
  }

  lemma {:induction false} LastVipIsCalled(calls: seq<Assign>, k: Key)
    ensures var last := LastVip(calls, k);
            last.Some? ==> exists i :: 0 <= i < |calls| && calls[i].peer.vip == last.value && calls[i].peer.key == k
  {
    if calls != [] && calls[|calls| - 1].peer.key != k {
      var n := |calls| - 1;
      LastVipIsCalled(calls[..n], k);
      if LastVip(calls, k).Some? {
        var i :| 0 <= i < n && calls[..n][i].peer.vip == LastVip(calls, k).value && calls[..n][i].peer.key == k;
        assert calls[i].peer.key == k;
      }
    }
  }

  /** What the last of these calls that concerns k decides: a wipe keeps k exactly when it re-adds k and
      is accepted, and an accepted call for k lets it in; any other call leaves k alone. */
  ghost function Decision(t: TunState, env: Env, calls: seq<Assign>, k: Key): Option<bool> {
    if calls == [] then None
    else
      var n := |calls| - 1;
      var u, key := CallAll(t, env, calls[..n]), calls[n].peer.key;
      if Expired(u.interface, key, env.now) then Some(env.wgOk(k) && (k == key || k in u.known))
      else if k == key && env.wgOk(k) then Some(true)
      else Decision(t, env, calls[..n], k)
  }

  lemma {:induction false} CallsDecide(t: TunState, env: Env, calls: seq<Assign>, k: Key)
    ensures var d := Decision(t, env, calls, k);
            k in CallAll(t, env, calls).interface <==> if d.Some? then d.value else k in t.interface
  {
    if calls != [] {
      var n := |calls| - 1;
      var c := calls[n];
      CallsDecide(t, env, calls[..n], k);
      InInterfaceIff(CallAll(t, env, calls[..n]), c.peer.key,
                     PeerConfig(c.endpoint, AllowedIps(c.peer.vip, c.peer.vip6)), env.now, env.wgOk, k);
    }
  }

  lemma {:induction false} CallsKeepStepAt(t: TunState, env: Env, calls: seq<Assign>, k: Key)
    requires InStepAt(t, k) && env.wgOk(k)
    ensures InStepAt(CallAll(t, env, calls), k)
  {
    if calls != [] {
      var n := |calls| - 1;
      var c := calls[n];
      CallsKeepStepAt(t, env, calls[..n], k);
      AddPeerKeepsStepAt(CallAll(t, env, calls[..n]), c.peer.key,
                         PeerConfig(c.endpoint, AllowedIps(c.peer.vip, c.peer.vip6)), env.now, env.wgOk, k);
    }
  }

  // ---- one key per virtual address

  /** Whoever has v/32, remembered or routed, is the peer at v with its stored key. */
  ghost predicate OwnedAt(s: Node, v: Vip) { forall k :: Held(s.tun, k, v) ==> IsEntry(s, v, k) }

  // A step gives v/32 to nobody but the entry of v.
  lemma StepHolds(cfg: Config, s: Node, ev: Event, env: Env, k: Key, v: Vip)
    requires Safe(s) && Held(Step(cfg, s, ev, env).node.tun, k, v)
    ensures Held(s.tun, k, v) || IsEntry(Step(cfg, s, ev, env).node, v, k)
  {
    if !ev.Disconnect? && !ev.WgHandshake? {
      StepMakes(cfg, s, ev, env);
      if !Held(s.tun, k, v) {
        CallsHold(s.tun, env, StepCalls(cfg, s, ev, env), k, v);
      }
    }
  }

  lemma SafeAt(cfg: Config, run: seq<Input>, n: nat)
    requires RankingOk(cfg.best) && n <= |run|
    ensures Safe(At(cfg, run, n))
  {
    AlwaysSafe(cfg, run[..n]);
  }

  lemma StepKeepsOwned(cfg: Config, s: Node, ev: Event, env: Env, v: Vip)
    requires Safe(s) && OwnedAt(s, v) && (ev.GotRemoved? ==> v !in ev.removed)
    ensures OwnedAt(Step(cfg, s, ev, env).node, v)
  {
    var t := Step(cfg, s, ev, env).node;
    forall k | Held(t.tun, k, v) ensures IsEntry(t, v, k) {
      StepHolds(cfg, s, ev, env, k, v);
      if Held(s.tun, k, v) && !ev.Disconnect? {
        EntriesStay(cfg, s, ev, env, v, k);
      }
    }
  }

  lemma StaysOwned(cfg: Config, run: seq<Input>, j: nat, v: Vip)
    requires RankingOk(cfg.best) && j < |run| && OwnedAt(At(cfg, run, j), v)
    requires run[j].ev.GotRemoved? ==> v !in run[j].ev.removed
    ensures OwnedAt(At(cfg, run, j + 1), v)
  {
    SafeAt(cfg, run, j);
    Unroll(cfg, run, j);
    StepKeepsOwned(cfg, At(cfg, run, j), run[j].ev, run[j].env, v);
  }

  lemma OwnedAfterDisconnect(cfg: Config, run: seq<Input>, i: nat, v: Vip)
    requires i <= |run| && (i == 0 || run[i - 1].ev.Disconnect?)
    ensures OwnedAt(At(cfg, run, i), v)
  {
    if i > 0 {
      Unroll(cfg, run, i - 1);
    }
    assert At(cfg, run, i) == START;
    assert START.tun.known == map[] && START.tun.interface == map[];
  }

  lemma OwnedSince(cfg: Config, run: seq<Input>, i: nat, v: Vip)
    requires RankingOk(cfg.best) && i <= |run| && OwnedAt(At(cfg, run, i), v)
    requires forall j :: i <= j < |run| && run[j].ev.GotRemoved? ==> v !in run[j].ev.removed
    ensures OwnedAt(At(cfg, run, |run|), v)
  {
    var states := States(cfg, run);
    forall j | i <= j < |run| && OwnedAt(states[j], v) ensures OwnedAt(states[j + 1], v) {
      StaysOwned(cfg, run, j, v);
    }
    Carry(states, i, |run|, (s: Node) => OwnedAt(s, v));
  }

  /** Between its own departures a virtual address has one key: if at some time only the peer at v had
      v/32 (as at the start, and after any disconnect), and v is not removed since, that peer is still the
      only one that has it, whoever else comes and goes. */
  lemma OneKeyPerVip(cfg: Config, run: seq<Input>, i: nat, v: Vip)
    requires RankingOk(cfg.best) && i <= |run|
    requires i == 0 || run[i - 1].ev.Disconnect? || OwnedAt(At(cfg, run, i), v)
    requires forall j :: i <= j < |run| && run[j].ev.GotRemoved? ==> v !in run[j].ev.removed
    ensures var s := At(cfg, run, |run|);
            OwnedAt(s, v) && forall k, k' :: Held(s.tun, k, v) && Held(s.tun, k', v) ==> k == k'
  {
    if i == 0 || run[i - 1].ev.Disconnect? {
      OwnedAfterDisconnect(cfg, run, i, v);
    }
    OwnedSince(cfg, run, i, v);
  }

  // ---- departures

  // v is absent, and whoever has v/32 had it at `before`.
  ghost predicate LeftBehind(before: Node, s: Node, v: Vip) {
    v !in s.peers && forall k :: Held(s.tun, k, v) ==> Held(before.tun, k, v)
  }

  lemma AbsenceKeeps(cfg: Config, before: Node, s: Node, ev: Event, env: Env, v: Vip)
    requires Safe(s) && LeftBehind(before, s, v) && v !in Step(cfg, s, ev, env).node.peers
    ensures LeftBehind(before, Step(cfg, s, ev, env).node, v)
  {
    var t := Step(cfg, s, ev, env).node;
    forall k | Held(t.tun, k, v) ensures Held(before.tun, k, v) {
      StepHolds(cfg, s, ev, env, k, v);
    }
  }

  lemma AbsentAt(cfg: Config, run: seq<Input>, before: Node, j: nat, v: Vip)
    requires RankingOk(cfg.best) && j < |run| && LeftBehind(before, At(cfg, run, j), v)
    requires v !in At(cfg, run, j + 1).peers
    ensures LeftBehind(before, At(cfg, run, j + 1), v)
  {
    SafeAt(cfg, run, j);
    Unroll(cfg, run, j);
    AbsenceKeeps(cfg, before, At(cfg, run, j), run[j].ev, run[j].env, v);
  }

  lemma DepartsAt(cfg: Config, run: seq<Input>, i: nat, v: Vip)
    requires i < |run| && run[i].ev.GotRemoved? && v in run[i].ev.removed
    ensures LeftBehind(At(cfg, run, i), At(cfg, run, i + 1), v)
  {
    Unroll(cfg, run, i);
  }

  /** From its departure on and as long as it stays absent, no key gains v/32: whoever has it had it before. */
  lemma DepartureLeaves(cfg: Config, run: seq<Input>, i: nat, v: Vip)
    requires RankingOk(cfg.best) && i < |run| && run[i].ev.GotRemoved? && v in run[i].ev.removed
    requires forall j :: i < j <= |run| ==> v !in At(cfg, run, j).peers
    ensures forall k :: Held(At(cfg, run, |run|).tun, k, v) ==> Held(At(cfg, run, i).tun, k, v)
  {
    var states := States(cfg, run);
    DepartsAt(cfg, run, i, v);
    forall j | i < j < |run| && LeftBehind(states[i], states[j], v) ensures LeftBehind(states[i], states[j + 1], v) {
      AbsentAt(cfg, run, states[i], j, v);
    }
    Carry(states, i + 1, |run|, (s: Node) => LeftBehind(states[i], s, v));
  }

  ghost predicate Split(known: map<Key, PeerConfig>, v: Vip) {
    exists k, k' :: k != k' && Serves(known, k, v) && Serves(known, k', v)
  }

  /** Some other key than `key` has v/32. */
  ghost predicate ServedByOther(known: map<Key, PeerConfig>, key: Key, v: Vip) {
    exists k :: k != key && Serves(known, k, v)
  }

  lemma ConfigureSplitsIff(t: TunState, env: Env, p: Peer, endpoint: Option<SocketAddr>)
    ensures Split(Configure(t, env, p, endpoint).known, p.vip) <==> ServedByOther(t.known, p.key, p.vip)
  {
    var known := Configure(t, env, p, endpoint).known;
    assert AllowedIps(p.vip, p.vip6)[0] == Host4(p.vip);
    assert Serves(known, p.key, p.vip);
    assert forall k :: k != p.key ==> (Serves(known, k, p.vip) <==> Serves(t.known, k, p.vip));
  }

  /** A departure leaves the WireGuard entries behind. When a ping then brings the absent v back, v/32 is
      remembered under two keys exactly when some key other than the one in the ping still had it. */
  lemma RediscoverySplitsIff(cfg: Config, s: Node, env: Env, src: SocketAddr, m: PingMsg)
    requires m.senderVip !in s.peers
    ensures Split(OnPing(cfg, s, env, src, m).node.tun.known, m.senderVip) <==>
            ServedByOther(s.tun.known, m.senderKey, m.senderVip)
  {
    ConfigureSplitsIff(s.tun, env, Discover(m, Normalize(src), env.now), Some(Normalize(src)));
  }

  /** An update brings v back in the same way, if it configures the peer at all: it does unless both ends
      are symmetric, or nothing is known to probe and the strategy is not Direct. If it does not, v/32 is
      under two keys exactly when it was before. */
  lemma UpdateSplitsIff(cfg: Config, s: Node, env: Env, info: PeerInfo, ourNat: Option<NatType>)
    requires info.vip !in s.peers
    ensures var strategy := SelectStrategy(ourNat, info.natType);
            var configures := strategy == Direct
                              || (strategy != RelayOnly && (info.endpoint.Some? || info.mapped.Some?));
            Split(OnPeerInfo(cfg, s, env, info, ourNat).node.tun.known, info.vip) <==>
            if configures then ServedByOther(s.tun.known, info.key, info.vip) else Split(s.tun.known, info.vip)
  {
    var p := Learn(cfg, Entry(s, info, ourNat), info, ourNat);
    FreshEntry(cfg, s, info, ourNat);
    ConfigureSplitsIff(s.tun, env, p, None);
    if p.eps != [] {
      ConfigureSplitsIff(s.tun, env, p, Some(Addrs(p.eps)[0]));
    }
  }

  // ---- who was configured last

  /** The address that the run configured last for k since the last disconnect. */
  ghost function LastAssigned(cfg: Config, run: seq<Input>, k: Key): Option<Vip> {
    if run == [] || run[|run| - 1].ev.Disconnect? then None
    else
      var n := |run| - 1;
      var last := LastVip(StepCalls(cfg, Exec(cfg, START, run[..n]), run[n].ev, run[n].env), k);
      if last.Some? then last else LastAssigned(cfg, run[..n], k)
  }

  lemma StepServes(cfg: Config, s: Node, ev: Event, env: Env, k: Key, v: Vip)
    requires !ev.Disconnect?
    ensures var last := LastVip(StepCalls(cfg, s, ev, env), k);
            && (Serves(Step(cfg, s, ev, env).node.tun.known, k, v) <==>
                  if last.Some? then last == Some(v) else Serves(s.tun.known, k, v))
            && (Safe(s) && last.Some? ==> IsEntry(Step(cfg, s, ev, env).node, last.value, k))
  {
    if !ev.WgHandshake? {
      StepMakes(cfg, s, ev, env);
      CallsServe(s.tun, env, StepCalls(cfg, s, ev, env), k, v);
      LastVipIsCalled(StepCalls(cfg, s, ev, env), k);
    }
  }

  /** In every reachable state v/32 is remembered for k exactly when k was last configured for v: WireGuard
      keys are not bound to addresses, and configuring a key again moves it. */
  lemma {:induction false} ServedIff(cfg: Config, run: seq<Input>, k: Key, v: Vip)
    ensures Serves(Exec(cfg, START, run).tun.known, k, v) <==> LastAssigned(cfg, run, k) == Some(v)
  {
    if run != [] && !run[|run| - 1].ev.Disconnect? {
      var n := |run| - 1;
      ServedIff(cfg, run[..n], k, v);
      StepServes(cfg, Exec(cfg, START, run[..n]), run[n].ev, run[n].env, k, v);
    }
  }

  /** No other entry shares the key of v. */
  ghost predicate Alone(s: Node, v: Vip) {
    v in s.peers ==> forall u :: u in s.peers && s.peers[u].key == s.peers[v].key ==> u == v
  }

  ghost predicate ServedIfConnected(s: Node, v: Vip) { Connected(s, v) ==> Serves(s.tun.known, s.peers[v].key, v) }

  lemma AnswerRecorded(cfg: Config, s: Node, env: Env, src: SocketAddr, m: PongMsg, v: Vip)
    requires Safe(s) && RankingOk(cfg.best) && Answers(s, m, v)
    ensures var q := Answered(cfg, s, env, src, m);
            q.key == s.peers[v].key && q.vip == v && q.state == DirectOk && BestAddr(cfg, q).Some?
  {
    var a, p := Normalize(src), s.peers[v];
    assert PeerSafe(v, p, s.sessions, s.tun.known);
    UpsertKeepsOk(p.eps, a, DirectProbe);
    UpsertHas(p.eps, a, DirectProbe);
    var eps := Upsert(p.eps, a, DirectProbe);
    var q := Answered(cfg, s, env, src, m);
    AnswerWorks(eps, a, Elapsed(s.pings[m.tx], env.now), cfg.probesAfterPong);
    assert forall i :: 0 <= i < |eps| ==> q.eps[i].source == eps[i].source;
    assert cfg.best(q.eps).value in q.eps;
  }

  lemma AnswerCalls(cfg: Config, s: Node, env: Env, src: SocketAddr, m: PongMsg, v: Vip)
    requires Safe(s) && RankingOk(cfg.best) && Answers(s, m, v)
    ensures LastVip(StepCalls(cfg, s, GotPong(src, m), env), s.peers[v].key) == Some(v)
    ensures Connected(OnPong(cfg, s, env, src, m).node, v)
  {
    AnswerRecorded(cfg, s, env, src, m, v);
    assert OnPong(cfg, s, env, src, m).node.peers[v] == Answered(cfg, s, env, src, m);
  }

  lemma ServedStep(cfg: Config, s: Node, ev: Event, env: Env, v: Vip)
    requires Safe(s) && RankingOk(cfg.best) && ServedIfConnected(s, v) && Alone(Step(cfg, s, ev, env).node, v)
    ensures ServedIfConnected(Step(cfg, s, ev, env).node, v)
  {
    var t := Step(cfg, s, ev, env).node;
    if Connected(t, v) {
      OnlyAnAnswerConnects(cfg, s, ev, env, v);
      StepServes(cfg, s, ev, env, t.peers[v].key, v);
      if !Connected(s, v) {
        AnswerCalls(cfg, s, env, ev.src, ev.pong, v);
      }
    }
  }

  lemma StaysServed(cfg: Config, run: seq<Input>, j: nat, v: Vip)
    requires RankingOk(cfg.best) && j < |run| && Alone(At(cfg, run, j + 1), v) && ServedIfConnected(At(cfg, run, j), v)
    ensures ServedIfConnected(At(cfg, run, j + 1), v)
  {
    SafeAt(cfg, run, j);
    Unroll(cfg, run, j);
    ServedStep(cfg, At(cfg, run, j), run[j].ev, run[j].env, v);
  }

  /** While no entry shares its key, a directly connected peer is served: its /32 is under its own key. */
  lemma DirectOkIsServed(cfg: Config, run: seq<Input>, v: Vip)
    requires RankingOk(cfg.best) && forall i :: 0 <= i <= |run| ==> Alone(At(cfg, run, i), v)
    ensures ServedIfConnected(At(cfg, run, |run|), v)
  {
    var states := States(cfg, run);
    forall j | 0 <= j < |run| && ServedIfConnected(states[j], v) ensures ServedIfConnected(states[j + 1], v) {
      assert Alone(states[j + 1], v);
      StaysServed(cfg, run, j, v);
    }
    Carry(states, 0, |run|, (s: Node) => ServedIfConnected(s, v));
  }

  /** Sharing a key takes one ping: an unknown address with the key of a directly connected, served peer
      takes the key's /32 over, exactly then, and the peer stays DirectOk without it. */
  lemma PingTakesOverIff(cfg: Config, s: Node, env: Env, src: SocketAddr, m: PingMsg, v: Vip)
    requires Connected(s, v) && Serves(s.tun.known, s.peers[v].key, v) && m.senderVip !in s.peers
    ensures var t := OnPing(cfg, s, env, src, m).node;
            && Connected(t, v) && t.peers[v].key == s.peers[v].key
            && (!Serves(t.tun.known, s.peers[v].key, v) <==> m.senderKey == s.peers[v].key)
            && (m.senderKey == s.peers[v].key && env.wgOk(m.senderKey) ==> !Routes(t.tun.interface, m.senderKey, v))
  {
    var q := Discover(m, Normalize(src), env.now);
    assert AllowedIps(q.vip, q.vip6)[0] == Host4(q.vip);
    assert Host4(v) !in AllowedIps(q.vip, q.vip6);
  }

  // ---- the interface

  /** What the last call of the run that concerns k decided, since the last disconnect. */
  ghost function LastDecision(cfg: Config, run: seq<Input>, k: Key): Option<bool> {
    if run == [] || run[|run| - 1].ev.Disconnect? then None
    else
      var n := |run| - 1;
      var s := Exec(cfg, START, run[..n]);
      var d := Decision(s.tun, run[n].env, StepCalls(cfg, s, run[n].ev, run[n].env), k);
      if d.Some? then d else LastDecision(cfg, run[..n], k)
  }

  lemma StepDecides(cfg: Config, s: Node, ev: Event, env: Env, k: Key)
    requires !ev.Disconnect?
    ensures var d := Decision(s.tun, env, StepCalls(cfg, s, ev, env), k);
            k in Step(cfg, s, ev, env).node.tun.interface <==> if d.Some? then d.value else k in s.tun.interface
  {
    if !ev.WgHandshake? {
      StepMakes(cfg, s, ev, env);
      CallsDecide(s.tun, env, StepCalls(cfg, s, ev, env), k);
    }
  }

  /** In every reachable state, whatever was refused, the interface has k exactly when the last call that
      concerned k let it in: an accepted one for k, or a wipe that re-added k and was accepted. */
  lemma {:induction false} InterfaceIff(cfg: Config, run: seq<Input>, k: Key)
    ensures k in Exec(cfg, START, run).tun.interface <==> LastDecision(cfg, run, k) == Some(true)
  {
    if run != [] && !run[|run| - 1].ev.Disconnect? {
      var n := |run| - 1;
      InterfaceIff(cfg, run[..n], k);
      StepDecides(cfg, Exec(cfg, START, run[..n]), run[n].ev, run[n].env, k);
    }
  }

  lemma StepKeepsStepAt(cfg: Config, s: Node, ev: Event, env: Env, k: Key)
    requires InStepAt(s.tun, k) && env.wgOk(k)
    ensures InStepAt(Step(cfg, s, ev, env).node.tun, k)
  {
    if !ev.Disconnect? && !ev.WgHandshake? {
      StepMakes(cfg, s, ev, env);
      CallsKeepStepAt(s.tun, env, StepCalls(cfg, s, ev, env), k);
    }
  }

  /** If the interface never refuses k, then after any run it holds k exactly when k is remembered, with
      the same configuration, through any number of resets and whatever it refuses for other keys. */
  lemma {:induction false} InterfaceFollows(cfg: Config, run: seq<Input>, k: Key)
    requires forall i :: 0 <= i < |run| ==> run[i].env.wgOk(k)
    ensures InStepAt(Exec(cfg, START, run).tun, k)
    ensures var t := Exec(cfg, START, run).tun;
            forall v :: Routes(t.interface, k, v) <==> Serves(t.known, k, v)
  {
    if run != [] {
      var n := |run| - 1;
      InterfaceFollows(cfg, run[..n], k);
      StepKeepsStepAt(cfg, Exec(cfg, START, run[..n]), run[n].ev, run[n].env, k);
    }
  }

  /** If it refuses nothing, the interface is a mirror of the remembered peers in every reachable state. */
  lemma AlwaysInStep(cfg: Config, run: seq<Input>)
    requires forall i, k :: 0 <= i < |run| ==> run[i].env.wgOk(k)
    ensures InStep(Exec(cfg, START, run).tun)
  {
    forall k ensures InStepAt(Exec(cfg, START, run).tun, k) {
      InterfaceFollows(cfg, run, k);
    }
    InStepIff(Exec(cfg, START, run).tun);
  }

  /** An answer makes its peer DirectOk whether or not WireGuard takes it: the interface has the key
      afterwards exactly when it accepts it now, or had it already and the tunnel is not expired. */
  lemma AnswerReachesInterfaceIff(cfg: Config, s: Node, env: Env, src: SocketAddr, m: PongMsg, v: Vip)
    requires Safe(s) && RankingOk(cfg.best) && Answers(s, m, v)
    ensures var t := OnPong(cfg, s, env, src, m).node;
            var key := s.peers[v].key;
            && Connected(t, v)
            && (key in t.tun.interface <==>
                  env.wgOk(key) || (key in s.tun.interface && !Expired(s.tun.interface, key, env.now)))
  {
    AnswerCalls(cfg, s, env, src, m, v);
    var q := Answered(cfg, s, env, src, m);
    InInterfaceIff(s.tun, q.key, PeerConfig(BestAddr(cfg, q), AllowedIps(q.vip, q.vip6)), env.now, env.wgOk, q.key);
  }

  /** In every reachable state a DirectOk peer whose key the interface never refused is in the interface,
      and its /32 is routed to it if no entry ever shared the key. */
  lemma DirectOkIsRouted(cfg: Config, run: seq<Input>, v: Vip)
    requires RankingOk(cfg.best) && Connected(At(cfg, run, |run|), v)
    requires forall i :: 0 <= i < |run| ==> run[i].env.wgOk(At(cfg, run, |run|).peers[v].key)
    ensures var s := At(cfg, run, |run|);
            && s.peers[v].key in s.tun.interface
            && ((forall i :: 0 <= i <= |run| ==> Alone(At(cfg, run, i), v)) ==>
                  Routes(s.tun.interface, s.peers[v].key, v))
  {
    var s := At(cfg, run, |run|);
    assert run[..|run|] == run;
    SafeAt(cfg, run, |run|);
    assert PeerSafe(v, s.peers[v], s.sessions, s.tun.known);
    InterfaceFollows(cfg, run, s.peers[v].key);
    if forall i :: 0 <= i <= |run| ==> Alone(At(cfg, run, i), v) {
      DirectOkIsServed(cfg, run, v);
    }
  }
}
