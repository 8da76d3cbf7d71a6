/** How one tick or one input moves a peer that does not answer towards the relay, and how the fallback
    is missed (crates/omni-core/src/manager.rs:329-337, 2411-2499). */
module RelayFallback {
  import opened Common
  import opened Addresses
  import opened Endpoints
  import opened Peers
  import opened DispatcherSpec
  import opened DispatcherSafety
  import opened DispatcherHistory
  import opened DispatcherTiming

  ghost predicate PingFor(s: Node, v: Vip, tx: TxId) { tx in s.pings && s.pings[tx].vip == v }
  ghost predicate Quiet(s: Node, v: Vip) { forall tx :: !PingFor(s, v, tx) }

  function Fallback(cfg: Config): ConnState { if cfg.relayEnabled then RelayTry else ConnState.Failed }

  // ---- one tick

  // Where v stands in the middle of a tick that began in state `before`.
  ghost predicate Verdict(cfg: Config, before: ConnState, s: Node, v: Vip) {
    && v in s.peers && s.peers[v].eps != [] && !HasWorking(s.peers[v].eps)
    && (s.peers[v].state == before || (NeedsRelay(s.peers[v].eps) && s.peers[v].state == Fallback(cfg)))
    && (Quiet(s, v) && NeedsRelay(s.peers[v].eps) ==> s.peers[v].state == Fallback(cfg))
  }

  lemma MarksKeepIdle(eps: seq<Endpoint>, a: SocketAddr)
    requires !HasWorking(eps)
    ensures !HasWorking(MarkProbing(eps, a)) && !HasWorking(MarkFailed(eps, a))
    ensures NeedsRelay(MarkFailed(eps, a)) == NeedsRelay(eps)
    ensures NeedsRelay(eps) ==> NeedsRelay(MarkProbing(eps, a))
  {
    var f := MarkFailed(eps, a);
    assert forall i :: 0 <= i < |eps| ==> f[i].probes == eps[i].probes;
  }

  lemma TickOneVerdict(cfg: Config, before: ConnState, s: Node, env: Env, tx: TxId, v: Vip)
    requires Verdict(cfg, before, s, v)
    ensures Verdict(cfg, before, TickOne(cfg, s, env, tx).node, v)
  {
    var t := TickOne(cfg, s, env, tx).node;
    if tx in s.pings {
      MarksKeepIdle(s.peers[v].eps, s.pings[tx].target);
      if s.pings[tx].vip != v && Quiet(t, v) {
        forall y ensures !PingFor(s, v, y) {
          assert !PingFor(t, v, y);
        }
      }
      if s.pings[tx].vip == v && s.pings[tx].retries < s.pings[tx].maxRetries && tx in t.pings {
        assert PingFor(t, v, tx);
      }
    }
  }

  lemma {:induction false} TickVerdict(cfg: Config, s: Node, env: Env, order: seq<TxId>, n: nat, v: Vip)
    requires v in s.peers && Verdict(cfg, s.peers[v].state, s, v) && n <= |order|
    ensures Verdict(cfg, s.peers[v].state, TickSome(cfg, s, env, order, n).node, v)
  {
    if n > 0 {
      TickVerdict(cfg, s, env, order, n - 1, v);
      TickOneVerdict(cfg, s.peers[v].state, TickSome(cfg, s, env, order, n - 1).node, env, order[n - 1], v);
    }
  }

  // The same judged by the probes after the tick, for a tick that happens to drop the last ping.
  lemma TickDecides(cfg: Config, s: Node, env: Env, order: seq<TxId>, v: Vip)
    requires v in s.peers && s.peers[v].eps != [] && !HasWorking(s.peers[v].eps) && !Quiet(s, v)
    requires Quiet(OnTick(cfg, s, env, order).node, v)
    ensures var t := OnTick(cfg, s, env, order).node;
            v in t.peers && t.peers[v].eps != [] && !HasWorking(t.peers[v].eps)
            && t.peers[v].state == if NeedsRelay(t.peers[v].eps) then Fallback(cfg) else s.peers[v].state
  {
    TickVerdict(cfg, s, env, order, |order|, v);
  }

  /** Every outstanding ping of v is overdue and has no retry left. */
  ghost predicate RunsOut(cfg: Config, s: Node, now: nat, v: Vip) {
    forall tx :: PingFor(s, v, tx) ==> Overdue(cfg, s.pings[tx], now) && s.pings[tx].retries >= s.pings[tx].maxRetries
  }

  lemma QuietAfterTickIff(cfg: Config, s: Node, env: Env, order: seq<TxId>, v: Vip)
    requires IsOrder(order, s.pings.Keys)
    ensures Quiet(OnTick(cfg, s, env, order).node, v) <==> RunsOut(cfg, s, env.now, v)
  {
    var t := OnTick(cfg, s, env, order).node;
    assert order[..|order|] == order;
    forall tx ensures PingFor(t, v, tx) <==> PingFor(s, v, tx) && Aged(cfg, s.pings[tx], env.now).Some? {
      TickKeepsOwner(cfg, s, env, order, |order|, tx);
      if tx in s.pings {
        TickAges(cfg, s, env, order, |order|, tx);
      }
    }
  }

  // t is s after some of v's pings, all without a retry left, were given up.
  ghost predicate Fading(s: Node, t: Node, v: Vip) {
    && v in s.peers && v in t.peers && |t.peers[v].eps| == |s.peers[v].eps|
    && (forall i :: 0 <= i < |s.peers[v].eps| ==> t.peers[v].eps[i].probes == s.peers[v].eps[i].probes)
    && (forall tx :: PingFor(t, v, tx) ==> PingFor(s, v, tx) && t.pings[tx] == s.pings[tx])
  }

  lemma {:induction false} TickFades(cfg: Config, s: Node, env: Env, order: seq<TxId>, n: nat, v: Vip)
    requires n <= |order| && v in s.peers && RunsOut(cfg, s, env.now, v)
    ensures Fading(s, TickSome(cfg, s, env, order, n).node, v)
  {
    if n > 0 {
      TickFades(cfg, s, env, order, n - 1, v);
      TickOneFades(cfg, s, TickSome(cfg, s, env, order, n - 1).node, env, order[n - 1], v);
    }
  }

  lemma TickOneFades(cfg: Config, s: Node, t: Node, env: Env, tx: TxId, v: Vip)
    requires Fading(s, t, v) && RunsOut(cfg, s, env.now, v)
    ensures Fading(s, TickOne(cfg, t, env, tx).node, v)
  {
    if PingFor(t, v, tx) {
      assert PingFor(s, v, tx);
    }
    var u := TickOne(cfg, t, env, tx).node;
    forall y | PingFor(u, v, y) ensures PingFor(s, v, y) && u.pings[y] == s.pings[y] {
      assert PingFor(t, v, y);
    }
  }

  /** The tick that finds all pings of v without a retry left, and no endpoint of v working, moves v to
      RelayTry (or Failed without a relay) exactly when every endpoint, pinged or not, has had three
      probes; otherwise its state stays what it was. Either way v has no ping left. */
  lemma LastPingDecides(cfg: Config, s: Node, env: Env, order: seq<TxId>, v: Vip)
    requires v in s.peers && s.peers[v].eps != [] && !HasWorking(s.peers[v].eps) && !Quiet(s, v)
    requires IsOrder(order, s.pings.Keys) && RunsOut(cfg, s, env.now, v)
    ensures var t := OnTick(cfg, s, env, order).node;
            var eps := s.peers[v].eps;
            && v in t.peers && Quiet(t, v)
            && t.peers[v].state == if forall i :: 0 <= i < |eps| ==> eps[i].probes >= PROBES_BEFORE_RELAY
                                   then Fallback(cfg) else s.peers[v].state
  {
    QuietAfterTickIff(cfg, s, env, order, v);
    TickDecides(cfg, s, env, order, v);
    TickFades(cfg, s, env, order, |order|, v);
    var before, after := s.peers[v].eps, OnTick(cfg, s, env, order).node.peers[v].eps;
    assert NeedsRelay(after) <==> forall i :: 0 <= i < |before| ==> before[i].probes >= PROBES_BEFORE_RELAY;
  }

  // ---- any step

  /** The input leaves the pursuit of v alone: no departure, no update and no answer for v, no ping from
      v out of an unknown address, and fresh transaction ids. */
  ghost predicate Undisturbed(s: Node, inp: Input, v: Vip) {
    && (forall k :: inp.env.tx(k) !in s.pings)
    && match inp.ev
       case GotPing(src, m) =>
         m.senderVip == v && v in s.peers && m.senderKey == s.peers[v].key ==> Has(s.peers[v].eps, Normalize(src))
       case GotPong(_, m) => !PingFor(s, v, m.tx)
       case GotInfo(info, _) => info.vip != v
       case GotRemoved(vips) => v !in vips
       case Disconnect => false
       case _ => true
  }

  ghost predicate GivenUp(cfg: Config, state: ConnState) {
    if cfg.relayEnabled then state in {RelayTry, RelayOk, ConnState.Failed} else state == ConnState.Failed
  }

  lemma {:induction false} QuietTick(cfg: Config, s: Node, env: Env, order: seq<TxId>, n: nat, v: Vip)
    requires Quiet(s, v) && v in s.peers && n <= |order|
    ensures var t := TickSome(cfg, s, env, order, n).node;
            Quiet(t, v) && v in t.peers && t.peers[v] == s.peers[v]
  {
    if n > 0 {
      QuietTick(cfg, s, env, order, n - 1, v);
      var e := TickSome(cfg, s, env, order, n - 1).node;
      var t := TickSome(cfg, s, env, order, n).node;
      assert !PingFor(e, v, order[n - 1]);
      forall tx ensures !PingFor(t, v, tx) {
        assert !PingFor(e, v, tx);
      }
    }
  }

  lemma OtherInfoKeeps(cfg: Config, s: Node, env: Env, info: PeerInfo, ourNat: Option<NatType>, v: Vip, tx: TxId)
    requires info.vip != v && v in s.peers && forall k :: env.tx(k) !in s.pings
    ensures var t := OnPeerInfo(cfg, s, env, info, ourNat).node;
            && v in t.peers && t.peers[v] == s.peers[v]
            && (tx in s.pings ==> tx in t.pings && t.pings[tx] == s.pings[tx])
  {
    var p := Learn(cfg, Entry(s, info, ourNat), info, ourNat);
    PursueKeeps(cfg, s, env, info.vip, p, v);
    PursueKeepsPings(cfg, s, env, info.vip, p, tx);
  }

  lemma PursueKeepsPings(cfg: Config, s: Node, env: Env, u: Vip, p: Peer, tx: TxId)
    requires tx in s.pings ==> forall k :: env.tx(k) != tx
    ensures var t := Pursue(cfg, s, env, u, p).node;
            tx in s.pings ==> tx in t.pings && t.pings[tx] == s.pings[tx]
  {
    ProbeKeepsPings(cfg, ProbeRound(p.eps, s.pings, {}), env, u, Addrs(p.eps), |p.eps|, tx);
  }

  lemma {:induction false} ProbeKeepsPings(cfg: Config, r: ProbeRound, env: Env, u: Vip, addrs: seq<SocketAddr>,
                                           n: nat, tx: TxId)
    requires n <= |addrs| && (tx in r.pings ==> forall k :: env.tx(k) != tx)
    ensures var q := Probe(cfg, r, env, u, addrs, n);
            tx in r.pings ==> tx in q.pings && q.pings[tx] == r.pings[tx]
  {
    if n > 0 {
      ProbeKeepsPings(cfg, r, env, u, addrs, n - 1, tx);
    }
  }

  // No undisturbed input starts a ping for v.
  lemma NoNewPings(cfg: Config, s: Node, inp: Input, v: Vip)
    requires v in s.peers && Undisturbed(s, inp, v)
    ensures forall tx :: PingFor(Step(cfg, s, inp.ev, inp.env).node, v, tx) ==> PingFor(s, v, tx)
  {
    var t := Step(cfg, s, inp.ev, inp.env).node;
    forall tx | PingFor(t, v, tx) ensures PingFor(s, v, tx) {
      PingsComeFromSends(cfg, s, inp.ev, inp.env, tx);
      if inp.ev.Tick? {
        TickKeepsOwner(cfg, s, inp.env, inp.ev.order, |inp.ev.order|, tx);
      }
    }
  }

  lemma {:induction false} TickKeepsOwner(cfg: Config, s: Node, env: Env, order: seq<TxId>, n: nat, tx: TxId)
    requires n <= |order|
    ensures var t := TickSome(cfg, s, env, order, n).node;
            tx in t.pings ==> tx in s.pings && t.pings[tx].vip == s.pings[tx].vip
  {
    if n > 0 {
      TickKeepsOwner(cfg, s, env, order, n - 1, tx);
    }
  }

  // t is s after an input that keeps v's endpoints, v's pings and, up to the relay's answer, v's state.
  ghost predicate Keeps(s: Node, t: Node, v: Vip) {
    && v in s.peers && v in t.peers && |t.peers[v].eps| == |s.peers[v].eps|
    && (forall i :: 0 <= i < |s.peers[v].eps| ==>
          t.peers[v].eps[i] == s.peers[v].eps[i].(source := t.peers[v].eps[i].source))
    && (forall tx :: PingFor(s, v, tx) ==> PingFor(t, v, tx) && t.pings[tx] == s.pings[tx])
    && (t.peers[v].state == s.peers[v].state
        || (s.peers[v].state == RelayTry && t.peers[v].state in {RelayOk, ConnState.Failed}))
  }

  lemma InfoKeeps(cfg: Config, s: Node, env: Env, info: PeerInfo, ourNat: Option<NatType>, v: Vip)
    requires info.vip != v && v in s.peers && forall k :: env.tx(k) !in s.pings
    ensures Keeps(s, OnPeerInfo(cfg, s, env, info, ourNat).node, v)
  {
    OtherInfoKeeps(cfg, s, env, info, ourNat, v, 0);
    var t := OnPeerInfo(cfg, s, env, info, ourNat).node;
    forall tx | PingFor(s, v, tx) ensures PingFor(t, v, tx) && t.pings[tx] == s.pings[tx] {
      OtherInfoKeeps(cfg, s, env, info, ourNat, v, tx);
    }
  }

  lemma PingKeeps(cfg: Config, s: Node, env: Env, src: SocketAddr, m: PingMsg, v: Vip)
    requires v in s.peers && Undisturbed(s, Input(GotPing(src, m), env), v)
    ensures Keeps(s, OnPing(cfg, s, env, src, m).node, v)
  {
  }

  // Besides ticks, an undisturbed input changes v's entry only in ways that keep the course.
  lemma CalmInputKeeps(cfg: Config, s: Node, inp: Input, v: Vip)
    requires v in s.peers && Undisturbed(s, inp, v) && !inp.ev.Tick?
    ensures Keeps(s, Step(cfg, s, inp.ev, inp.env).node, v)
  {
    match inp.ev
    case GotPing(src, m) => PingKeeps(cfg, s, inp.env, src, m, v);
    case GotPong(src, m) =>
    case GotAck(src, m, vips) =>
    case GotInfo(info, ourNat) => InfoKeeps(cfg, s, inp.env, info, ourNat, v);
    case GotRemoved(vips) =>
    case WgHandshake(key, at) =>
  }

  // ---- how the fallback can be missed

  ghost predicate Stalled(s: Node, v: Vip) { v in s.peers && Quiet(s, v) && s.peers[v].state == DirectTry }

  /** Signaling neither updates nor removes v, and the node does not disconnect. */
  predicate LeavesAlone(ev: Event, v: Vip) {
    match ev
    case GotInfo(info, _) => info.vip != v
    case GotRemoved(vips) => v !in vips
    case Disconnect => false
    case _ => true
  }

  lemma StallStep(cfg: Config, s: Node, ev: Event, env: Env, v: Vip)
    requires Stalled(s, v) && LeavesAlone(ev, v)
    ensures Stalled(Step(cfg, s, ev, env).node, v)
  {
    StallEntry(cfg, s, ev, env, v);
    forall tx ensures !PingFor(Step(cfg, s, ev, env).node, v, tx) {
      PingsComeFromSends(cfg, s, ev, env, tx);
      if ev.Tick? {
        TickKeepsOwner(cfg, s, env, ev.order, |ev.order|, tx);
      }
      assert !PingFor(s, v, tx);
    }
  }

  lemma StallEntry(cfg: Config, s: Node, ev: Event, env: Env, v: Vip)
    requires Stalled(s, v) && LeavesAlone(ev, v)
    ensures var t := Step(cfg, s, ev, env).node;
            v in t.peers && t.peers[v].state == DirectTry
  {
    match ev
    case GotPing(src, m) =>
    case GotPong(src, m) => assert !PingFor(s, v, m.tx);
    case GotAck(src, m, vips) =>
    case GotInfo(info, ourNat) =>
      PursueKeeps(cfg, s, env, info.vip, Learn(cfg, Entry(s, info, ourNat), info, ourNat), v);
    case GotRemoved(vips) =>
    case Tick(order) => QuietTick(cfg, s, env, order, |order|, v);
    case WgHandshake(key, at) =>
  }

  lemma StallsOn(cfg: Config, run: seq<Input>, j: nat, v: Vip)
    requires j < |run| && Stalled(At(cfg, run, j), v) && LeavesAlone(run[j].ev, v)
    ensures Stalled(At(cfg, run, j + 1), v)
  {
    Unroll(cfg, run, j);
    StallStep(cfg, At(cfg, run, j), run[j].ev, run[j].env, v);
  }

  /** A peer left in DirectTry without pings does not fall back, however many ticks follow and whatever
      it sends, until signaling updates or removes it or the node disconnects. */
  lemma StallIsPermanent(cfg: Config, run: seq<Input>, u: nat, v: Vip)
    requires u <= |run| && Stalled(At(cfg, run, u), v)
    requires forall j :: u <= j < |run| ==> LeavesAlone(run[j].ev, v)
    ensures Stalled(At(cfg, run, |run|), v)
  {
    var states := States(cfg, run);
    forall j | u <= j < |run| && Stalled(states[j], v) ensures Stalled(states[j + 1], v) {
      StallsOn(cfg, run, j, v);
    }
    Carry(states, u, |run|, (s: Node) => Stalled(s, v));
  }

  /** An answer is taken off the pending table before its key is checked. So an answer stalls a peer that
      is being probed exactly when it hits the only outstanding ping of that peer with a foreign key. */
  lemma AnswerStallsIff(cfg: Config, s: Node, env: Env, src: SocketAddr, m: PongMsg, v: Vip)
    requires v in s.peers && s.peers[v].state == DirectTry && !Quiet(s, v)
    ensures Stalled(OnPong(cfg, s, env, src, m).node, v) <==>
            && PingFor(s, v, m.tx) && m.responderKey != s.peers[v].key
            && forall tx :: PingFor(s, v, tx) ==> tx == m.tx
  {
    var t := OnPong(cfg, s, env, src, m).node;
    assert forall tx :: PingFor(t, v, tx) <==> PingFor(s, v, tx) && tx != m.tx;
    if Answers(s, m, v) {
      AnswerEndsProbing(cfg, s, env, src, m, v);
    }
  }

  lemma AnswerEndsProbing(cfg: Config, s: Node, env: Env, src: SocketAddr, m: PongMsg, v: Vip)
    requires Answers(s, m, v)
    ensures OnPong(cfg, s, env, src, m).node.peers[v].state in {DirectOk, RelayOk}
  {
    var a, p := Normalize(src), s.peers[v];
    UpsertHas(p.eps, a, DirectProbe);
    AnswerWorks(Upsert(p.eps, a, DirectProbe), a, Elapsed(s.pings[m.tx], env.now), cfg.probesAfterPong);
  }

  /** The fallback counts the probes of every known endpoint, also of one that was only heard from. So
      when a peer has been probed enough, its pings run out at the next tick and it pings us before that,
      it is stalled instead of falling back exactly when the ping comes from an address not known yet. */
  lemma HeardFromStallsIff(cfg: Config, s: Node, env: Env, src: SocketAddr, m: PingMsg, env': Env, order: seq<TxId>)
    requires var v := m.senderVip;
             && v in s.peers && m.senderKey == s.peers[v].key && s.peers[v].state == DirectTry
             && NeedsRelay(s.peers[v].eps) && !Quiet(s, v)
             && RunsOut(cfg, s, env'.now, v) && IsOrder(order, s.pings.Keys)
    ensures Stalled(OnTick(cfg, OnPing(cfg, s, env, src, m).node, env', order).node, m.senderVip) <==>
            !Has(s.peers[m.senderVip].eps, Normalize(src))
  {
    var v, a := m.senderVip, Normalize(src);
    var s1 := OnPing(cfg, s, env, src, m).node;
    var eps := s.peers[v].eps;
    var heard := s1.peers[v].eps;
    assert heard == Upsert(eps, a, DirectProbe) && s1.pings == s.pings;
    UpsertAddsNoWorking(eps, a, DirectProbe);
    var tx :| PingFor(s, v, tx);
    assert PingFor(s1, v, tx);
    assert forall tx :: PingFor(s1, v, tx) <==> PingFor(s, v, tx);
    LastPingDecides(cfg, s1, env', order, v);
    if Has(eps, a) {
      assert forall i :: 0 <= i < |heard| ==> heard[i].probes == eps[i].probes;
    } else {
      assert heard[|eps|].probes == 0;
    }
  }
}
