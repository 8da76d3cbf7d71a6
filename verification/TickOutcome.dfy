/** What a whole tick does to one peer, told from the state before it: the retries and give-ups happen in
    the order of the hash map, and that order can matter (crates/omni-core/src/manager.rs:2405-2504). */
module TickOutcome {
  import opened Common
  import opened Addresses
  import opened Endpoints
  import opened Peers
  import opened DispatcherSpec
  import opened DispatcherSafety
  import opened DispatcherHistory
  import opened DispatcherTiming
  import opened DispatcherTables
  import opened RelayFallback
  import W = WireGuard

  predicate IsRetry(cfg: Config, s: Node, now: nat, tx: TxId, v: Vip, a: SocketAddr) {
    && tx in s.pings && s.pings[tx].vip == v && s.pings[tx].target == a
    && Overdue(cfg, s.pings[tx], now) && s.pings[tx].retries < s.pings[tx].maxRetries
  }

  /** How many of the first n pings are sent again to v at a. */
  function Retried(cfg: Config, s: Node, now: nat, order: seq<TxId>, n: nat, v: Vip, a: SocketAddr): nat
    requires n <= |order|
  {
    if n == 0 then 0
    else Retried(cfg, s, now, order, n - 1, v, a) + if IsRetry(cfg, s, now, order[n - 1], v, a) then 1 else 0
  }

  /** One of the first n pings, aimed at v at a, is given up. */
  predicate Hit(cfg: Config, s: Node, now: nat, order: seq<TxId>, n: nat, v: Vip, a: SocketAddr)
    requires n <= |order|
  {
    exists m :: 0 <= m < n && GivesUp(cfg, s, now, order[m], v) && s.pings[order[m]].target == a
  }

  /** Giving up ping m finds all endpoints of v probed enough by then, and nothing working any more. */
  predicate Decisive(cfg: Config, s: Node, now: nat, order: seq<TxId>, m: nat, v: Vip)
    requires m < |order| && v in s.peers
  {
    && GivesUp(cfg, s, now, order[m], v) && s.peers[v].eps != []
    && forall i :: 0 <= i < |s.peers[v].eps| ==>
         var e := s.peers[v].eps[i];
         && e.probes + Retried(cfg, s, now, order, m, v, e.addr) >= PROBES_BEFORE_RELAY
         && (e.status == Working ==> Hit(cfg, s, now, order, m + 1, v, e.addr))
  }

  predicate Decided(cfg: Config, s: Node, now: nat, order: seq<TxId>, n: nat, v: Vip)
    requires n <= |order| && v in s.peers
  {
    exists m :: 0 <= m < n && Decisive(cfg, s, now, order, m, v)
  }

  // Endpoint e of v in s has become f after the first n pings.
  ghost predicate MidEndpoint(cfg: Config, s: Node, now: nat, order: seq<TxId>, n: nat, v: Vip,
                              e: Endpoint, f: Endpoint)
    requires n <= |order|
  {
    && f.addr == e.addr
    && f.probes == e.probes + Retried(cfg, s, now, order, n, v, e.addr)
    && (f.status == Working <==> e.status == Working && !Hit(cfg, s, now, order, n, v, e.addr))
  }

  ghost predicate Mid(cfg: Config, s: Node, t: Node, now: nat, order: seq<TxId>, n: nat, v: Vip)
    requires n <= |order|
  {
    && v in s.peers && v in t.peers && |t.peers[v].eps| == |s.peers[v].eps|
    && (forall i :: 0 <= i < |s.peers[v].eps| ==>
          MidEndpoint(cfg, s, now, order, n, v, s.peers[v].eps[i], t.peers[v].eps[i]))
    && t.peers[v].state == if Decided(cfg, s, now, order, n, v) then Fallback(cfg) else s.peers[v].state
  }

  lemma HitMore(cfg: Config, s: Node, now: nat, order: seq<TxId>, n: nat, v: Vip, a: SocketAddr)
    requires 0 < n <= |order|
    ensures Hit(cfg, s, now, order, n, v, a) <==>
            || Hit(cfg, s, now, order, n - 1, v, a)
            || (GivesUp(cfg, s, now, order[n - 1], v) && s.pings[order[n - 1]].target == a)
  {
  }

  lemma DecidedMore(cfg: Config, s: Node, now: nat, order: seq<TxId>, n: nat, v: Vip)
    requires 0 < n <= |order| && v in s.peers
    ensures Decided(cfg, s, now, order, n, v) <==>
            Decided(cfg, s, now, order, n - 1, v) || Decisive(cfg, s, now, order, n - 1, v)
  {
  }

  // The endpoints after one more ping.
  lemma MidEndpoints(cfg: Config, s: Node, t: Node, env: Env, order: seq<TxId>, n: nat, v: Vip, i: nat)
    requires 0 < n <= |order| && Mid(cfg, s, t, env.now, order, n - 1, v) && i < |s.peers[v].eps|
    requires order[n - 1] in s.pings && order[n - 1] in t.pings && t.pings[order[n - 1]] == s.pings[order[n - 1]]
    ensures var u := TickOne(cfg, t, env, order[n - 1]).node;
            && v in u.peers && |u.peers[v].eps| == |s.peers[v].eps|
            && MidEndpoint(cfg, s, env.now, order, n, v, s.peers[v].eps[i], u.peers[v].eps[i])
  {
    var e, f := s.peers[v].eps[i], t.peers[v].eps[i];
    var tx := order[n - 1];
    assert MidEndpoint(cfg, s, env.now, order, n - 1, v, e, f);
    HitMore(cfg, s, env.now, order, n, v, e.addr);
    var g := TickOne(cfg, t, env, tx).node.peers[v].eps[i];
    if IsRetry(cfg, s, env.now, tx, v, e.addr) {
      assert g.probes == f.probes + 1 && !GivesUp(cfg, s, env.now, tx, v);
    } else {
      assert g.probes == f.probes;
    }
  }

  lemma MidDecides(cfg: Config, s: Node, t: Node, env: Env, order: seq<TxId>, n: nat, v: Vip)
    requires 0 < n <= |order| && Mid(cfg, s, t, env.now, order, n - 1, v) && GivesUp(cfg, s, env.now, order[n - 1], v)
    ensures NeedsRelay(MarkFailed(t.peers[v].eps, s.pings[order[n - 1]].target)) <==>
            Decisive(cfg, s, env.now, order, n - 1, v)
  {
    var failed := MarkFailed(t.peers[v].eps, s.pings[order[n - 1]].target);
    forall i | 0 <= i < |failed|
      ensures failed[i].probes
              == s.peers[v].eps[i].probes + Retried(cfg, s, env.now, order, n - 1, v, s.peers[v].eps[i].addr)
      ensures failed[i].status == Working <==>
              s.peers[v].eps[i].status == Working && !Hit(cfg, s, env.now, order, n, v, s.peers[v].eps[i].addr)
    {
      assert MidEndpoint(cfg, s, env.now, order, n - 1, v, s.peers[v].eps[i], t.peers[v].eps[i]);
      HitMore(cfg, s, env.now, order, n, v, s.peers[v].eps[i].addr);
    }
  }

  lemma MidStep(cfg: Config, s: Node, t: Node, env: Env, order: seq<TxId>, n: nat, v: Vip)
    requires 0 < n <= |order| && Mid(cfg, s, t, env.now, order, n - 1, v)
    requires order[n - 1] in s.pings && order[n - 1] in t.pings && t.pings[order[n - 1]] == s.pings[order[n - 1]]
    ensures Mid(cfg, s, TickOne(cfg, t, env, order[n - 1]).node, env.now, order, n, v)
  {
    DecidedMore(cfg, s, env.now, order, n, v);
    var u := TickOne(cfg, t, env, order[n - 1]).node;
    if GivesUp(cfg, s, env.now, order[n - 1], v) {
      MidDecides(cfg, s, t, env, order, n, v);
    }
    forall i | 0 <= i < |s.peers[v].eps|
      ensures MidEndpoint(cfg, s, env.now, order, n, v, s.peers[v].eps[i], u.peers[v].eps[i])
    {
      MidEndpoints(cfg, s, t, env, order, n, v, i);
    }
  }

  lemma {:induction false} TickIsMid(cfg: Config, s: Node, env: Env, order: seq<TxId>, n: nat, v: Vip)
    requires IsOrder(order, s.pings.Keys) && n <= |order| && v in s.peers
    ensures Mid(cfg, s, TickSome(cfg, s, env, order, n).node, env.now, order, n, v)
  {
    if n > 0 {
      TickIsMid(cfg, s, env, order, n - 1, v);
      assert order[n - 1] !in order[..n - 1];
      TickAges(cfg, s, env, order, n - 1, order[n - 1]);
      MidStep(cfg, s, TickSome(cfg, s, env, order, n - 1).node, env, order, n, v);
    }
  }

  /** The verdict of a whole tick: v moves to RelayTry (Failed without a relay) exactly when giving up some
      ping is decisive, and otherwise keeps its state; retries count as probes when the order has them
      before that ping, and working addresses stop working exactly when a ping to them is given up. */
  lemma TickMoves(cfg: Config, s: Node, env: Env, order: seq<TxId>, v: Vip)
    requires IsOrder(order, s.pings.Keys) && v in s.peers
    ensures var t, n := OnTick(cfg, s, env, order).node, |order|;
            && v in t.peers && |t.peers[v].eps| == |s.peers[v].eps|
            && t.peers[v].state == (if Decided(cfg, s, env.now, order, n, v) then Fallback(cfg) else s.peers[v].state)
            && forall i :: 0 <= i < |s.peers[v].eps| ==>
                 MidEndpoint(cfg, s, env.now, order, n, v, s.peers[v].eps[i], t.peers[v].eps[i])
  {
    TickIsMid(cfg, s, env, order, |order|, v);
  }

  /** A whole tick leaves a directly connected peer DirectOk with nothing working exactly when it gives up a
      ping to every working address, none of them decisively. */
  lemma TickStrandsIff(cfg: Config, s: Node, env: Env, order: seq<TxId>, v: Vip)
    requires IsOrder(order, s.pings.Keys) && Connected(s, v) && HasWorking(s.peers[v].eps)
    ensures !Backed(OnTick(cfg, s, env, order).node, v) <==>
            && (forall i :: 0 <= i < |s.peers[v].eps| && s.peers[v].eps[i].status == Working ==>
                  Hit(cfg, s, env.now, order, |order|, v, s.peers[v].eps[i].addr))
            && !Decided(cfg, s, env.now, order, |order|, v)
  {
    var t := OnTick(cfg, s, env, order).node;
    TickMoves(cfg, s, env, order, v);
    forall i | 0 <= i < |s.peers[v].eps|
      ensures t.peers[v].eps[i].status == Working <==>
              s.peers[v].eps[i].status == Working && !Hit(cfg, s, env.now, order, |order|, v, s.peers[v].eps[i].addr)
    {
      assert MidEndpoint(cfg, s, env.now, order, |order|, v, s.peers[v].eps[i], t.peers[v].eps[i]);
    }
  }

  /** The inputs that leave a relayed peer in RelayOk. An answer connects it directly; an update keeps it only
      if there is nothing to probe; a tick keeps it unless giving up an old ping is decisive. */
  ghost predicate KeepsRelay(cfg: Config, s: Node, ev: Event, env: Env, v: Vip)
    requires v in s.peers && (ev.Tick? ==> IsOrder(ev.order, s.pings.Keys))
  {
    match ev
    case GotPong(_, m) => !Answers(s, m, v)
    case GotInfo(info, ourNat) =>
      info.vip != v || (var p := Learn(cfg, s.peers[v], info, ourNat); p.strategy == Direct && p.eps == [])
    case GotRemoved(vips) => v !in vips
    case Tick(order) => !Decided(cfg, s, env.now, order, |order|, v)
    case Disconnect => false
    case _ => true
  }

  /** In every reachable state exactly these do. Any other input ends RelayOk; the flag and the session stay
      unless the peer leaves or is directly connected. */
  lemma RelayEndsIff(cfg: Config, run: seq<Input>, ev: Event, env: Env, v: Vip)
    requires RankingOk(cfg.best)
    requires var s := Exec(cfg, START, run);
             v in s.peers && s.peers[v].state == RelayOk && (ev.Tick? ==> IsOrder(ev.order, s.pings.Keys))
    ensures var s := Exec(cfg, START, run);
            var t := Step(cfg, s, ev, env).node;
            && (v in t.peers && t.peers[v].state == RelayOk <==> KeepsRelay(cfg, s, ev, env, v))
            && (v in t.peers && t.peers[v].state != DirectOk ==>
                  t.peers[v].usingRelay && s.peers[v].key in t.sessions)
  {
    AlwaysSafe(cfg, run);
    SafeRelayEndsIff(cfg, Exec(cfg, START, run), ev, env, v);
  }

  lemma {:induction false} TickKeepsFlag(cfg: Config, s: Node, env: Env, order: seq<TxId>, n: nat, v: Vip)
    requires n <= |order| && v in s.peers
    ensures var t := TickSome(cfg, s, env, order, n).node;
            v in t.peers && t.peers[v].usingRelay == s.peers[v].usingRelay && t.sessions == s.sessions
  {
    if n > 0 {
      TickKeepsFlag(cfg, s, env, order, n - 1, v);
    }
  }

  // v is in RelayOk in t, or it is not and (unless connected directly) still has its flag.
  ghost predicate RelayEnds(s: Node, t: Node, v: Vip, kept: bool)
    requires v in s.peers
  {
    && (v in t.peers && t.peers[v].state == RelayOk <==> kept)
    && (v in t.peers && t.peers[v].state != DirectOk ==> t.peers[v].usingRelay && s.peers[v].key in t.sessions)
  }

  lemma InfoEndsRelayIff(cfg: Config, s: Node, env: Env, info: PeerInfo, ourNat: Option<NatType>, v: Vip)
    requires v in s.peers && s.peers[v].state == RelayOk && PeerSafe(v, s.peers[v], s.sessions, s.tun.known)
    ensures RelayEnds(s, OnPeerInfo(cfg, s, env, info, ourNat).node, v,
                      KeepsRelay(cfg, s, GotInfo(info, ourNat), env, v))
  {
    LearnWithoutWorking(cfg, Entry(s, info, ourNat), info, ourNat);
    PursueKeeps(cfg, s, env, info.vip, Learn(cfg, Entry(s, info, ourNat), info, ourNat), v);
  }

  lemma PacketEndsRelayIff(cfg: Config, s: Node, ev: Event, env: Env, v: Vip)
    requires RankingOk(cfg.best) && Safe(s) && v in s.peers && s.peers[v].state == RelayOk
    requires ev.GotPing? || ev.GotPong? || ev.GotAck?
    ensures RelayEnds(s, Step(cfg, s, ev, env).node, v, KeepsRelay(cfg, s, ev, env, v))
  {
    assert PeerSafe(v, s.peers[v], s.sessions, s.tun.known);
    if ev.GotPong? && Answers(s, ev.pong, v) {
      W.AnswerCalls(cfg, s, env, ev.src, ev.pong, v);
    }
  }

  lemma SafeRelayEndsIff(cfg: Config, s: Node, ev: Event, env: Env, v: Vip)
    requires RankingOk(cfg.best) && Safe(s) && v in s.peers && s.peers[v].state == RelayOk
    requires ev.Tick? ==> IsOrder(ev.order, s.pings.Keys)
    ensures RelayEnds(s, Step(cfg, s, ev, env).node, v, KeepsRelay(cfg, s, ev, env, v))
  {
    assert PeerSafe(v, s.peers[v], s.sessions, s.tun.known);
    match ev
    case GotPing(src, m) => PacketEndsRelayIff(cfg, s, ev, env, v);
    case GotPong(src, m) => PacketEndsRelayIff(cfg, s, ev, env, v);
    case GotAck(src, m, vips) => PacketEndsRelayIff(cfg, s, ev, env, v);
    case GotInfo(info, ourNat) => InfoEndsRelayIff(cfg, s, env, info, ourNat, v);
    case GotRemoved(vips) =>
    case Tick(order) =>
      TickMoves(cfg, s, env, order, v);
      TickKeepsFlag(cfg, s, env, order, |order|, v);
    case WgHandshake(key, at) =>
    case Disconnect =>
  }
}
