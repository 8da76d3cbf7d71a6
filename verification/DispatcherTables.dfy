/** Agreements between the tables over whole runs: consumed answers, the debug report, working endpoints,
    and what an endpoint change does. */
module DispatcherTables {
  import opened Common
  import opened Addresses
  import opened Endpoints
  import opened Peers
  import opened DispatcherSpec
  import opened DispatcherSafety
  import opened DispatcherHistory

  // ---- answers are consumed

  /** An answer that does not match, or carries another key, changes nothing but drops its ping. */
  lemma RejectedPongOnlyDropsItsPing(cfg: Config, s: Node, env: Env, src: SocketAddr, m: PongMsg)
    ensures (forall v :: !Answers(s, m, v)) <==>
            (m.tx in s.pings ==> s.pings[m.tx].vip !in s.peers || s.peers[s.pings[m.tx].vip].key != m.responderKey)
    ensures (forall v :: !Answers(s, m, v)) ==>
              OnPong(cfg, s, env, src, m).node == s.(pings := s.pings - {m.tx})
  {
    if m.tx in s.pings {
      var v := s.pings[m.tx].vip;
      assert Answers(s, m, v) <==> v in s.peers && s.peers[v].key == m.responderKey;
    } else {
      assert s.pings - {m.tx} == s.pings;
    }
  }

  lemma {:induction false} ConsumedStaysOut(cfg: Config, run: seq<Input>, i: nat, tx: TxId, n: nat)
    requires i < n <= |run| && run[i].ev.GotPong? && run[i].ev.pong.tx == tx
    requires forall j, k :: i < j < |run| ==> run[j].env.tx(k) != tx
    ensures tx !in At(cfg, run, n).pings
  {
    Unroll(cfg, run, n - 1);
    if n - 1 > i {
      ConsumedStaysOut(cfg, run, i, tx, n - 1);
      PingsComeFromSends(cfg, At(cfg, run, n - 1), run[n - 1].ev, run[n - 1].env, tx);
    }
  }

  /** Delivering an answer again, at any later time and from anywhere, changes nothing as long as no
      later ping drew the same transaction id. */
  lemma RedeliveryIsNoOp(cfg: Config, run: seq<Input>, i: nat, env: Env, src: SocketAddr, m: PongMsg)
    requires i < |run| && run[i].ev.GotPong? && run[i].ev.pong.tx == m.tx
    requires forall j, k :: i < j < |run| ==> run[j].env.tx(k) != m.tx
    ensures var s := At(cfg, run, |run|);
            OnPong(cfg, s, env, src, m) == Effect(s, {})
  {
    ConsumedStaysOut(cfg, run, i, m.tx, |run|);
  }

  // ---- the debug report

  datatype DebugInfo = DebugInfo(total: nat, connected: nat, probing: nat, failed: nat, relayed: nat, pendingPings: nat)

  function InState(peers: map<Vip, Peer>, state: ConnState): set<Vip> { set v | v in peers && peers[v].state == state }
  function Relayed(peers: map<Vip, Peer>): set<Vip> { set v | v in peers && peers[v].usingRelay }

  function GetDebugInfo(s: Node): DebugInfo {
    DebugInfo(|s.peers|, |InState(s.peers, DirectOk)|, |InState(s.peers, DirectTry)|,
              |InState(s.peers, ConnState.Failed)|, |Relayed(s.peers)|, |s.pings|)
  }

  lemma DisjointFit<T>(a: set<T>, b: set<T>, all: set<T>)
    requires a !! b && a + b <= all
    ensures |a| + |b| == |a + b| <= |all|
  {
    Fits(a + b, all);
  }

  lemma {:induction false} Fits<T>(a: set<T>, all: set<T>)
    requires a <= all
    ensures |a| <= |all|
  {
    if a != {} {
      var x :| x in a;
      Fits(a - {x}, all - {x});
    }
  }

  /** The report adds up in every reachable state; it may count a peer as relayed that is not in RelayOk,
      and does so exactly when some peer kept the flag while being probed again or waiting. */
  lemma DebugReportAddsUp(cfg: Config, run: seq<Input>)
    requires RankingOk(cfg.best)
    ensures var s := Exec(cfg, START, run);
            var d := GetDebugInfo(s);
            && d.connected + d.relayed <= d.total
            && d.connected + d.probing + d.failed <= d.total
            && |InState(s.peers, RelayOk)| <= d.relayed
            && (|InState(s.peers, RelayOk)| == d.relayed <==>
                  forall v :: v in s.peers && s.peers[v].usingRelay ==> s.peers[v].state == RelayOk)
  {
    AlwaysSafe(cfg, run);
    var s := Exec(cfg, START, run);
    forall v | v in s.peers ensures FlagOk(s.peers[v]) {
      assert PeerSafe(v, s.peers[v], s.sessions, s.tun.known);
    }
    ReportAddsUp(s);
  }

  ghost predicate FlagOk(p: Peer) {
    (p.state == DirectOk ==> !p.usingRelay) && (p.state == RelayOk ==> p.usingRelay)
  }

  lemma ReportAddsUp(s: Node)
    requires forall v :: v in s.peers ==> FlagOk(s.peers[v])
    ensures var d := GetDebugInfo(s);
            && d.connected + d.relayed <= d.total
            && d.connected + d.probing + d.failed <= d.total
            && |InState(s.peers, RelayOk)| <= d.relayed
            && (|InState(s.peers, RelayOk)| == d.relayed <==>
                  forall v :: v in s.peers && s.peers[v].usingRelay ==> s.peers[v].state == RelayOk)
  {
    var direct, trying := InState(s.peers, DirectOk), InState(s.peers, DirectTry);
    var failed := InState(s.peers, ConnState.Failed);
    assert |s.peers| == |s.peers.Keys|;
    DisjointFit(direct, Relayed(s.peers), s.peers.Keys);
    DisjointFit(direct, trying, s.peers.Keys);
    DisjointFit(direct + trying, failed, s.peers.Keys);
    RelayedCount(s);
  }

  /** Each count of the report is 0 exactly when there is nothing to count, and the connected peers are all
      there are exactly when every peer is DirectOk. */
  lemma ReportTells(s: Node)
    ensures var d := GetDebugInfo(s);
            && (d.total == 0 <==> s.peers == map[]) && (d.pendingPings == 0 <==> s.pings == map[])
            && (d.connected == d.total <==> forall v :: v in s.peers ==> s.peers[v].state == DirectOk)
            && (d.connected == 0 <==> forall v :: v in s.peers ==> s.peers[v].state != DirectOk)
            && (d.probing == 0 <==> forall v :: v in s.peers ==> s.peers[v].state != DirectTry)
            && (d.failed == 0 <==> forall v :: v in s.peers ==> s.peers[v].state != ConnState.Failed)
            && (d.relayed == 0 <==> forall v :: v in s.peers ==> !s.peers[v].usingRelay)
  {
    assert |s.peers| == |s.peers.Keys| && |s.pings| == |s.pings.Keys|;
    SameSize(InState(s.peers, DirectOk), s.peers.Keys);
    forall state ensures |InState(s.peers, state)| == 0 <==> forall v :: v in s.peers ==> s.peers[v].state != state {
      CountsNone(s, state);
    }
    if forall v :: v in s.peers ==> s.peers[v].state == DirectOk {
      assert InState(s.peers, DirectOk) == s.peers.Keys;
    }
    if exists v :: v in s.peers && s.peers[v].usingRelay {
      var v :| v in s.peers && s.peers[v].usingRelay;
      assert v in Relayed(s.peers);
    } else {
      assert Relayed(s.peers) == {};
    }
    if InState(s.peers, DirectOk) == s.peers.Keys {
      forall v | v in s.peers ensures s.peers[v].state == DirectOk {
        assert v in InState(s.peers, DirectOk);
      }
    }
  }

  lemma CountsNone(s: Node, state: ConnState)
    ensures |InState(s.peers, state)| == 0 <==> forall v :: v in s.peers ==> s.peers[v].state != state
  {
    if v :| v in s.peers && s.peers[v].state == state {
      assert v in InState(s.peers, state);
    } else {
      assert InState(s.peers, state) == {};
    }
  }

  lemma RelayedCount(s: Node)
    requires forall v :: v in s.peers ==> FlagOk(s.peers[v])
    ensures var ok, relayed := InState(s.peers, RelayOk), Relayed(s.peers);
            && |ok| <= |relayed|
            && (|ok| == |relayed| <==>
                  forall v :: v in s.peers && s.peers[v].usingRelay ==> s.peers[v].state == RelayOk)
  {
    var ok, relayed := InState(s.peers, RelayOk), Relayed(s.peers);
    SameSize(ok, relayed);
    if ok == relayed {
      forall v | v in s.peers && s.peers[v].usingRelay ensures s.peers[v].state == RelayOk {
        assert v in relayed;
      }
    }
  }

  lemma SameSize<T>(a: set<T>, all: set<T>)
    requires a <= all
    ensures |a| <= |all| && (|a| == |all| <==> a == all)
  {
    Fits(a, all);
    if exists x :: x in all && x !in a {
      var x :| x in all && x !in a;
      Fits(a, all - {x});
    } else {
      assert a == all;
    }
  }

  // ---- working endpoints

  /** In every reachable state a relayed peer has no working endpoint of its own, so the next signaling
      update takes it out of RelayOk unless there is nothing to probe; the flag stays. */
  lemma UpdateDemotesRelayedIff(cfg: Config, run: seq<Input>, env: Env, info: PeerInfo, ourNat: Option<NatType>)
    requires RankingOk(cfg.best)
    requires var s := Exec(cfg, START, run); info.vip in s.peers && s.peers[info.vip].state == RelayOk
    ensures var s := Exec(cfg, START, run);
            var p := Learn(cfg, s.peers[info.vip], info, ourNat);
            var t := OnPeerInfo(cfg, s, env, info, ourNat).node;
            && t.peers[info.vip].usingRelay
            && (t.peers[info.vip].state == RelayOk <==> p.strategy == Direct && p.eps == [])
  {
    var s := Exec(cfg, START, run);
    AlwaysSafe(cfg, run);
    assert PeerSafe(info.vip, s.peers[info.vip], s.sessions, s.tun.known);
    LearnWithoutWorking(cfg, s.peers[info.vip], info, ourNat);
  }

  ghost predicate Backed(s: Node, v: Vip) { Connected(s, v) ==> HasWorking(s.peers[v].eps) }

  predicate GivesUp(cfg: Config, s: Node, now: nat, tx: TxId, v: Vip) {
    && tx in s.pings && s.pings[tx].vip == v
    && Overdue(cfg, s.pings[tx], now) && s.pings[tx].retries >= s.pings[tx].maxRetries
  }

  ghost predicate WorksAt(eps: seq<Endpoint>, a: SocketAddr) {
    exists i :: 0 <= i < |eps| && eps[i].addr == a && eps[i].status == Working
  }

  /** A directly connected peer can lose its last working endpoint and stay DirectOk. Looking at one ping
      does that exactly when an older ping to the only working address is given up while some endpoint
      has had fewer than three probes. */
  lemma GivingUpStrandsIff(cfg: Config, s: Node, env: Env, tx: TxId, v: Vip)
    requires Connected(s, v) && HasWorking(s.peers[v].eps)
    ensures var eps := s.peers[v].eps;
            !Backed(TickOne(cfg, s, env, tx).node, v) <==>
            && GivesUp(cfg, s, env.now, tx, v)
            && (forall i :: 0 <= i < |eps| && eps[i].status == Working ==> eps[i].addr == s.pings[tx].target)
            && exists i :: 0 <= i < |eps| && eps[i].probes < PROBES_BEFORE_RELAY
  {
    var t := TickOne(cfg, s, env, tx).node;
    var eps, after := s.peers[v].eps, t.peers[v].eps;
    assert |after| == |eps|;
    if GivesUp(cfg, s, env.now, tx, v) {
      assert after == MarkFailed(eps, s.pings[tx].target);
      assert forall i :: 0 <= i < |eps| ==> after[i].probes == eps[i].probes;
      assert HasWorking(after) <==>
             exists i :: 0 <= i < |eps| && eps[i].status == Working && eps[i].addr != s.pings[tx].target by {
        if i :| 0 <= i < |eps| && eps[i].status == Working && eps[i].addr != s.pings[tx].target {
          assert after[i].status == Working;
        }
      }
    } else {
      var i :| 0 <= i < |eps| && eps[i].status == Working;
      assert after[i].status == Working;
    }
  }

  /** The input is a tick that gives up a ping to a working address of v. */
  ghost predicate Undercuts(cfg: Config, s: Node, inp: Input, v: Vip) {
    && inp.ev.Tick? && v in s.peers
    && exists tx :: tx in inp.ev.order && GivesUp(cfg, s, inp.env.now, tx, v)
                    && WorksAt(s.peers[v].eps, s.pings[tx].target)
  }

  // t is s in the middle of a tick that undercuts nothing of v.
  ghost predicate Standing(s: Node, t: Node, now: nat, v: Vip) {
    && v in s.peers && v in t.peers && |t.peers[v].eps| == |s.peers[v].eps|
    && (forall i :: 0 <= i < |s.peers[v].eps| ==>
          && t.peers[v].eps[i].addr == s.peers[v].eps[i].addr
          && (t.peers[v].eps[i].status == Working <==> s.peers[v].eps[i].status == Working))
    && (forall tx :: tx in t.pings && t.pings[tx].vip == v ==>
          tx in s.pings && (t.pings[tx] == s.pings[tx] || t.pings[tx].sentAt == now))
    && (Connected(t, v) ==> Connected(s, v))
  }

  lemma TickOneStands(cfg: Config, s: Node, t: Node, env: Env, tx: TxId, order: seq<TxId>, v: Vip)
    requires tx in order && Standing(s, t, env.now, v) && !Undercuts(cfg, s, Input(Tick(order), env), v)
    ensures Standing(s, TickOne(cfg, t, env, tx).node, env.now, v)
  {
    if GivesUp(cfg, t, env.now, tx, v) {
      assert GivesUp(cfg, s, env.now, tx, v);
      assert !WorksAt(s.peers[v].eps, s.pings[tx].target);
    }
  }

  lemma {:induction false} TickStands(cfg: Config, s: Node, env: Env, order: seq<TxId>, n: nat, v: Vip)
    requires n <= |order| && v in s.peers && !Undercuts(cfg, s, Input(Tick(order), env), v)
    ensures Standing(s, TickSome(cfg, s, env, order, n).node, env.now, v)
  {
    if n > 0 {
      TickStands(cfg, s, env, order, n - 1, v);
      TickOneStands(cfg, s, TickSome(cfg, s, env, order, n - 1).node, env, order[n - 1], order, v);
    }
  }

  lemma TickKeepsBacked(cfg: Config, s: Node, env: Env, order: seq<TxId>, v: Vip)
    requires Backed(s, v) && !Undercuts(cfg, s, Input(Tick(order), env), v)
    ensures Backed(OnTick(cfg, s, env, order).node, v)
  {
    var t := OnTick(cfg, s, env, order).node;
    TickIsCalm(cfg, s, env, order, |order|, v);
    if Connected(t, v) {
      TickStands(cfg, s, env, order, |order|, v);
      var i :| 0 <= i < |s.peers[v].eps| && s.peers[v].eps[i].status == Working;
      assert t.peers[v].eps[i].status == Working;
    }
  }

  lemma PacketKeepsBacked(cfg: Config, s: Node, ev: Event, env: Env, v: Vip)
    requires Backed(s, v) && (ev.GotPing? || ev.GotPong? || ev.GotAck?)
    ensures Backed(Step(cfg, s, ev, env).node, v)
  {
    match ev
    case GotPing(src, m) =>
      if m.senderVip in s.peers {
        UpsertAddsNoWorking(s.peers[m.senderVip].eps, Normalize(src), DirectProbe);
      }
    case GotPong(src, m) =>
      if Answers(s, m, v) {
        var a := Normalize(src);
        UpsertHas(s.peers[v].eps, a, DirectProbe);
        AnswerWorks(Upsert(s.peers[v].eps, a, DirectProbe), a, Elapsed(s.pings[m.tx], env.now), cfg.probesAfterPong);
      }
    case GotAck(src, m, vips) =>
  }

  lemma InfoKeepsBacked(cfg: Config, s: Node, env: Env, info: PeerInfo, ourNat: Option<NatType>, v: Vip)
    requires Backed(s, v)
    ensures Backed(OnPeerInfo(cfg, s, env, info, ourNat).node, v)
  {
    var p := Learn(cfg, Entry(s, info, ourNat), info, ourNat);
    LearnWithoutWorking(cfg, Entry(s, info, ourNat), info, ourNat);
    PursueKeeps(cfg, s, env, info.vip, p, v);
  }

  lemma StepKeepsBacked(cfg: Config, s: Node, inp: Input, v: Vip)
    requires Backed(s, v) && !Undercuts(cfg, s, inp, v)
    ensures Backed(Step(cfg, s, inp.ev, inp.env).node, v)
  {
    match inp.ev
    case GotInfo(info, ourNat) => InfoKeepsBacked(cfg, s, inp.env, info, ourNat, v);
    case GotRemoved(vips) =>
    case Tick(order) => TickKeepsBacked(cfg, s, inp.env, order, v);
    case WgHandshake(key, at) =>
    case Disconnect =>
    case _ => PacketKeepsBacked(cfg, s, inp.ev, inp.env, v);
  }

  lemma StaysBacked(cfg: Config, run: seq<Input>, j: nat, v: Vip)
    requires j < |run| && Backed(At(cfg, run, j), v) && !Undercuts(cfg, At(cfg, run, j), run[j], v)
    ensures Backed(At(cfg, run, j + 1), v)
  {
    Unroll(cfg, run, j);
    StepKeepsBacked(cfg, At(cfg, run, j), run[j], v);
  }

  /** Nothing else does it: a DirectOk peer has a working endpoint after any run in which no tick gave up a
      ping to an address of that peer that worked. */
  lemma DirectOkWorks(cfg: Config, run: seq<Input>, v: Vip)
    requires forall j :: 0 <= j < |run| ==> !Undercuts(cfg, At(cfg, run, j), run[j], v)
    ensures Backed(At(cfg, run, |run|), v)
  {
    var states := States(cfg, run);
    forall j | 0 <= j < |run| && Backed(states[j], v) ensures Backed(states[j + 1], v) {
      StaysBacked(cfg, run, j, v);
    }
    Carry(states, 0, |run|, (s: Node) => Backed(s, v));
  }

  // ---- endpoint changes

  /** The pings of one probing round are all outstanding at its end, if its ids differ and its sends work. */
  lemma {:induction false} ProbeCovers(cfg: Config, r: ProbeRound, env: Env, v: Vip, addrs: seq<SocketAddr>, n: nat)
    requires n <= |addrs|
    requires forall i :: 0 <= i < n ==> env.sendOk(i)
    requires forall i, j :: 0 <= i < j < n ==> env.tx(i) != env.tx(j)
    ensures var q := Probe(cfg, r, env, v, addrs, n);
            && |q.eps| == |r.eps|
            && (forall i :: 0 <= i < |r.eps| ==> q.eps[i].addr == r.eps[i].addr)
            && forall i :: 0 <= i < n ==>
                 env.tx(i) in q.pings && q.pings[env.tx(i)] == Pending(addrs[i], v, env.now, 0, cfg.maxRetries)
  {
    if n > 0 {
      ProbeCovers(cfg, r, env, v, addrs, n - 1);
    }
  }

  ghost predicate Outstanding(s: Node, v: Vip, a: SocketAddr) {
    exists tx :: tx in s.pings && s.pings[tx].vip == v && s.pings[tx].target == a
  }

  /** A detected endpoint change never leaves the peer idle: the same step ends in RelayTry, or in
      DirectTry with a ping outstanding for every known endpoint when the sends succeed. */
  lemma ResetStartsOver(cfg: Config, s: Node, env: Env, info: PeerInfo, ourNat: Option<NatType>)
    requires info.vip in s.peers && Resets(cfg, s.peers[info.vip], info)
    requires forall i :: env.sendOk(i)
    requires forall i, j :: 0 <= i < j ==> env.tx(i) != env.tx(j)
    ensures var t := OnPeerInfo(cfg, s, env, info, ourNat).node;
            var q := t.peers[info.vip];
            && !q.usingRelay && !HasWorking(q.eps)
            && (q.state == RelayTry
                || (q.state == DirectTry && q.eps != []
                    && forall i :: 0 <= i < |q.eps| ==> Outstanding(t, info.vip, q.eps[i].addr)))
  {
    var v := info.vip;
    var p := Learn(cfg, s.peers[v], info, ourNat);
    LearnWithoutWorking(cfg, s.peers[v], info, ourNat);
    PursueCovers(cfg, s, env, v, p);
  }

  lemma PursueCovers(cfg: Config, s: Node, env: Env, v: Vip, p: Peer)
    requires !HasWorking(p.eps) && p.eps != []
    requires forall i :: env.sendOk(i)
    requires forall i, j :: 0 <= i < j ==> env.tx(i) != env.tx(j)
    ensures var t := Pursue(cfg, s, env, v, p).node;
            && v in t.peers
            && t.peers[v] == p.(eps := t.peers[v].eps, state := t.peers[v].state)
            && !HasWorking(t.peers[v].eps)
            && (t.peers[v].state == RelayTry
                || (t.peers[v].state == DirectTry && t.peers[v].eps != []
                    && forall i :: 0 <= i < |t.peers[v].eps| ==> Outstanding(t, v, t.peers[v].eps[i].addr)))
  {
    var addrs := Addrs(p.eps);
    var r := ProbeRound(p.eps, s.pings, {});
    ProbeCovers(cfg, r, env, v, addrs, |addrs|);
    ProbeAddsNoWorking(cfg, r, env, v, addrs, |addrs|);
    var t := Pursue(cfg, s, env, v, p).node;
    if p.strategy != RelayOnly {
      forall i | 0 <= i < |t.peers[v].eps| ensures Outstanding(t, v, t.peers[v].eps[i].addr) {
        assert env.tx(i) in t.pings && t.pings[env.tx(i)].target == addrs[i];
      }
    }
  }

  // Signaling reports addresses in plain form.
  ghost predicate PlainSignaling(run: seq<Input>) {
    forall i :: 0 <= i < |run| && run[i].ev.GotInfo? ==> PlainInfo(run[i].ev.info)
  }

  ghost predicate PlainInfo(info: PeerInfo) {
    info.endpoint.Or((a: SocketAddr) => Plain(a), true) && info.mapped.Or((a: SocketAddr) => Plain(a), true)
  }

  ghost predicate PlainEps(eps: seq<Endpoint>) { forall i :: 0 <= i < |eps| ==> Plain(eps[i].addr) }
  ghost predicate PlainTable(s: Node) { forall v :: v in s.peers ==> PlainEps(s.peers[v].eps) }

  lemma {:induction false} ProbeKeepsPlain(cfg: Config, r: ProbeRound, env: Env, v: Vip, addrs: seq<SocketAddr>, n: nat)
    requires n <= |addrs| && PlainEps(r.eps)
    ensures PlainEps(Probe(cfg, r, env, v, addrs, n).eps)
  {
    if n > 0 {
      ProbeKeepsPlain(cfg, r, env, v, addrs, n - 1);
    }
  }

  lemma LearnKeepsPlain(cfg: Config, p: Peer, info: PeerInfo, ourNat: Option<NatType>)
    requires PlainEps(p.eps) && PlainInfo(info)
    ensures PlainEps(Learn(cfg, p, info, ourNat).eps)
  {
    var p0 := if Resets(cfg, p, info) then ResetPeer(p) else p;
    assert PlainEps(p0.eps);
    var p1 := if info.endpoint.Some? then p0.AddEndpoint(info.endpoint.value, Nucleus) else p0;
    assert PlainEps(p1.eps);
  }

  lemma PursueKeepsPlain(cfg: Config, s: Node, env: Env, v: Vip, p: Peer)
    requires PlainTable(s) && PlainEps(p.eps)
    ensures PlainTable(Pursue(cfg, s, env, v, p).node)
  {
    ProbeKeepsPlain(cfg, ProbeRound(p.eps, s.pings, {}), env, v, Addrs(p.eps), |p.eps|);
  }

  lemma {:induction false} TickKeepsPlain(cfg: Config, s: Node, env: Env, order: seq<TxId>, n: nat)
    requires PlainTable(s) && n <= |order|
    ensures PlainTable(TickSome(cfg, s, env, order, n).node)
  {
    if n > 0 {
      TickKeepsPlain(cfg, s, env, order, n - 1);
    }
  }

  lemma PingKeepsPlain(cfg: Config, s: Node, env: Env, src: SocketAddr, m: PingMsg)
    requires PlainTable(s)
    ensures PlainTable(OnPing(cfg, s, env, src, m).node)
  {
    NormalizeUndoesSend(src, false);
  }

  lemma AckKeepsPlain(cfg: Config, s: Node, env: Env, src: SocketAddr, m: AckMsg, order: seq<Vip>)
    requires PlainTable(s)
    ensures PlainTable(OnRelayAck(cfg, s, env, src, m, order).node)
  {
  }

  lemma PongKeepsPlain(cfg: Config, s: Node, env: Env, src: SocketAddr, m: PongMsg)
    requires PlainTable(s)
    ensures PlainTable(OnPong(cfg, s, env, src, m).node)
  {
    NormalizeUndoesSend(src, false);
    if m.tx in s.pings && s.pings[m.tx].vip in s.peers {
      var p := s.peers[s.pings[m.tx].vip].AddEndpoint(Normalize(src), DirectProbe);
      assert PlainEps(p.eps);
      assert PlainEps(p.RecordPong(cfg, Normalize(src), env.now, Elapsed(s.pings[m.tx], env.now)).eps);
    }
  }

  lemma StepKeepsPlain(cfg: Config, s: Node, ev: Event, env: Env)
    requires PlainTable(s) && (ev.GotInfo? ==> PlainInfo(ev.info))
    ensures PlainTable(Step(cfg, s, ev, env).node)
  {
    match ev
    case GotPing(src, m) => PingKeepsPlain(cfg, s, env, src, m);
    case GotPong(src, m) => PongKeepsPlain(cfg, s, env, src, m);
    case GotAck(src, m, vips) => AckKeepsPlain(cfg, s, env, src, m, vips);
    case GotInfo(info, ourNat) =>
      assert PlainEps(Entry(s, info, ourNat).eps);
      LearnKeepsPlain(cfg, Entry(s, info, ourNat), info, ourNat);
      PursueKeepsPlain(cfg, s, env, info.vip, Learn(cfg, Entry(s, info, ourNat), info, ourNat));
    case GotRemoved(vips) =>
    case Tick(order) => TickKeepsPlain(cfg, s, env, order, |order|);
    case WgHandshake(key, at) =>
    case Disconnect =>
  }

  lemma {:induction false} AlwaysPlain(cfg: Config, run: seq<Input>)
    requires PlainSignaling(run)
    ensures PlainTable(Exec(cfg, START, run))
  {
    if run != [] {
      var n := |run| - 1;
      AlwaysPlain(cfg, run[..n]);
      StepKeepsPlain(cfg, Exec(cfg, START, run[..n]), run[n].ev, run[n].env);
    }
  }

  /** While signaling uses plain addresses, an update naming the address of the best endpoint resets the
      peer exactly when it spells that address in IPv4-mapped form: heartbeats do not reset connections. */
  lemma SameAddressResetsIff(cfg: Config, run: seq<Input>, v: Vip, info: PeerInfo)
    requires RankingOk(cfg.best) && PlainSignaling(run)
    requires var s := Exec(cfg, START, run);
             && v in s.peers && HasWorking(s.peers[v].eps) && info.endpoint.Some?
             && BestAddr(cfg, s.peers[v]).Some?
             && Normalize(info.endpoint.value) == Normalize(BestAddr(cfg, s.peers[v]).value)
    ensures Resets(cfg, Exec(cfg, START, run).peers[v], info) <==> !Plain(info.endpoint.value)
  {
    AlwaysPlain(cfg, run);
    var p := Exec(cfg, START, run).peers[v];
    var e := cfg.best(p.eps).value;
    assert e in p.eps && PlainEps(p.eps);
    NormalizeUndoesSend(e.addr, false);
    NormalizeUndoesSend(info.endpoint.value, false);
  }
}
