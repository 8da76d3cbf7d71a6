/** Any number of honest nodes over a network that may lose, duplicate, delay, reorder and misdeliver
    packets: what a direct connection at one end says about the other. */
module Mesh {
  import opened Common
  import opened Addresses
  import opened Endpoints
  import opened Peers
  import opened DispatcherSpec
  import opened DispatcherHistory
  import opened DispatcherSafety
  import opened StepOutcomes

  // The members by public key. Ids of different nodes never collide: `owner` says who draws which.
  datatype Members = Members(cfgs: map<Key, Config>, owner: TxId -> Key) {
    ghost predicate Valid() {
      && (forall k :: k in cfgs ==> cfgs[k].ourKey == k)
      && (forall k, k' :: k in cfgs && k' in cfgs && cfgs[k].ourVip == cfgs[k'].ourVip ==> k == k')
    }

    /** v is the virtual address of the member with key k. */
    predicate IsTrue(v: Vip, k: Key) { k in cfgs && cfgs[k].ourVip == v }
  }

  // `net` only grows: a packet in it may be delivered never, once or often, to anyone, from any address.
  // `log` remembers each ping a node handled, and whether the table then held the sender's address
  // under the sender's key.
  datatype World = World(nodes: map<Key, Node>, net: set<Msg>, log: set<Handled>)
  datatype Handled = Handled(node: Key, ping: PingMsg, held: bool)

  datatype Action = Action(at: Key, ev: Event, env: Env)

  function Holds(s: Node, m: PingMsg): bool { m.senderVip in s.peers && s.peers[m.senderVip].key == m.senderKey }

  ghost predicate Possible(ms: Members, w: World, a: Action) {
    && a.at in w.nodes
    && (a.ev.GotPing? ==> Ping(a.ev.ping) in w.net)
    && (a.ev.GotPong? ==> Pong(a.ev.pong) in w.net)
    && (a.ev.GotInfo? ==> ms.IsTrue(a.ev.info.vip, a.ev.info.key))
    && (forall k :: ms.owner(a.env.tx(k)) == a.at)
  }

  function Act(ms: Members, w: World, a: Action): World
    requires a.at in w.nodes && a.at in ms.cfgs
  {
    var e := Step(ms.cfgs[a.at], w.nodes[a.at], a.ev, a.env);
    World(w.nodes[a.at := e.node],
          w.net + (set p | p in e.sent :: p.msg),
          if a.ev.GotPing? then w.log + {Handled(a.at, a.ev.ping, Holds(e.node, a.ev.ping))} else w.log)
  }

  ghost function Begin(ms: Members): World { World(map k | k in ms.cfgs :: START, {}, {}) }

  /** w is reachable in some number of actions. */
  ghost predicate Reachable(ms: Members, w: World, actions: seq<Action>)
    decreases |actions|
  {
    if actions == [] then w == Begin(ms)
    else
      var a := actions[|actions| - 1];
      exists w' :: Reachable(ms, w', actions[..|actions| - 1]) && Follows(ms, w', a, w)
  }

  ghost predicate Follows(ms: Members, w: World, a: Action, w': World) {
    a.at in ms.cfgs && Possible(ms, w, a) && w' == Act(ms, w, a)
  }

  // ---- what one node sends and learns

  ghost predicate WellSent(cfg: Config, s: Node, ev: Event, env: Env, m: Msg) {
    match m
    case Ping(p) =>
      p == PingMsg(p.tx, cfg.ourKey, cfg.ourVip, cfg.ourVip6) && (p.tx in s.pings || exists k :: env.tx(k) == p.tx)
    case Pong(p) => ev.GotPing? && p == PongMsg(ev.ping.tx, cfg.ourKey)
    case Bind(_, _) => true
  }

  lemma {:induction false} ProbeSendsPings(cfg: Config, s: Node, ev: Event, r: ProbeRound, env: Env, v: Vip,
                                           addrs: seq<SocketAddr>, n: nat)
    requires n <= |addrs| && forall p :: p in r.sent ==> WellSent(cfg, s, ev, env, p.msg)
    ensures forall p :: p in Probe(cfg, r, env, v, addrs, n).sent ==> WellSent(cfg, s, ev, env, p.msg)
  {
    if n > 0 {
      ProbeSendsPings(cfg, s, ev, r, env, v, addrs, n - 1);
    }
  }

  lemma {:induction false} TickSendsPings(cfg: Config, s: Node, env: Env, order: seq<TxId>, n: nat)
    requires n <= |order|
    ensures forall p :: p in TickSome(cfg, s, env, order, n).sent ==> WellSent(cfg, s, Tick(order), env, p.msg)
  {
    if n > 0 {
      TickSendsPings(cfg, s, env, order, n - 1);
      TickKeepsPings(cfg, s, env, order, n - 1);
    }
  }

  lemma StepSends(cfg: Config, s: Node, ev: Event, env: Env)
    ensures forall p :: p in Step(cfg, s, ev, env).sent ==> WellSent(cfg, s, ev, env, p.msg)
  {
    match ev
    case GotPing(src, m) =>
    case GotPong(src, m) =>
    case GotAck(src, m, vips) =>
    case GotInfo(info, ourNat) =>
      PursueSendsPings(cfg, s, ev, env, info.vip, Learn(cfg, Entry(s, info, ourNat), info, ourNat));
    case GotRemoved(vips) =>
    case Tick(order) => TickSendsPings(cfg, s, env, order, |order|);
    case WgHandshake(key, at) =>
    case Disconnect =>
  }

  lemma PursueSendsPings(cfg: Config, s: Node, ev: Event, env: Env, v: Vip, p: Peer)
    ensures forall q :: q in Pursue(cfg, s, env, v, p).sent ==> WellSent(cfg, s, ev, env, q.msg)
  {
    ProbeSendsPings(cfg, s, ev, ProbeRound(p.eps, s.pings, {}), env, v, Addrs(p.eps), |p.eps|);
  }

  lemma PingEntries(cfg: Config, s: Node, env: Env, src: SocketAddr, m: PingMsg, v: Vip)
    ensures var t := OnPing(cfg, s, env, src, m).node;
            && (v in t.peers <==> v in s.peers || v == m.senderVip)
            && (v in s.peers ==> t.peers[v].key == s.peers[v].key)
            && (v in t.peers && v !in s.peers ==> t.peers[v].key == m.senderKey)
  {
  }

  /** An entry is old, from an update, or from a ping; a ping of a known peer with its key keeps the entry. */
  lemma EntriesComeFrom(cfg: Config, s: Node, ev: Event, env: Env, v: Vip)
    ensures var t := Step(cfg, s, ev, env).node;
            v in t.peers ==>
              || (v in s.peers && t.peers[v].key == s.peers[v].key)
              || (ev.GotInfo? && v == ev.info.vip && t.peers[v].key == ev.info.key)
              || (ev.GotPing? && v == ev.ping.senderVip && t.peers[v].key == ev.ping.senderKey)
    ensures var t := Step(cfg, s, ev, env).node;
            ev.GotPing? ==> (v in t.peers <==> v in s.peers || v == ev.ping.senderVip)
    ensures ev.GotPing? && ev.ping.senderVip !in s.peers ==> Holds(Step(cfg, s, ev, env).node, ev.ping)
  {
    OnlyAnAnswerConnects(cfg, s, ev, env, v);
    match ev
    case GotPing(src, m) => PingEntries(cfg, s, env, src, m, v);
    case GotPong(src, m) =>
    case GotAck(src, m, vips) =>
    case GotInfo(info, ourNat) =>
      PursueKeeps(cfg, s, env, info.vip, Learn(cfg, Entry(s, info, ourNat), info, ourNat), v);
    case GotRemoved(vips) =>
    case Tick(order) => TickIsCalm(cfg, s, env, order, |order|, v);
    case WgHandshake(key, at) =>
    case Disconnect =>
  }

  // ---- the invariant

  /** `handler` handled a ping of `from` with this id while its table held from's address under from's key. */
  ghost predicate HandledFor(ms: Members, w: World, handler: Key, tx: TxId, from: Key) {
    exists h :: h in w.log && h.node == handler && h.held && h.ping.tx == tx && h.ping.senderKey == from
                && ms.IsTrue(h.ping.senderVip, from)
  }

  ghost predicate NodeOk(ms: Members, w: World, k: Key, s: Node) {
    && (forall v :: v in s.peers ==> ms.IsTrue(v, s.peers[v].key))
    && (forall tx :: tx in s.pings ==> ms.owner(tx) == k)
    && (forall v :: Connected(s, v) ==> exists tx :: HandledFor(ms, w, s.peers[v].key, tx, k))
  }

  ghost predicate MsgOk(ms: Members, w: World, m: Msg) {
    match m
    case Ping(p) => ms.IsTrue(p.senderVip, p.senderKey) && ms.owner(p.tx) == p.senderKey
    case Pong(p) => HandledFor(ms, w, p.responderKey, p.tx, ms.owner(p.tx))
    case Bind(_, _) => true
  }

  ghost predicate WorldOk(ms: Members, w: World) {
    && w.nodes.Keys <= ms.cfgs.Keys
    && (forall k :: k in w.nodes ==> NodeOk(ms, w, k, w.nodes[k]))
    && (forall m :: m in w.net ==> MsgOk(ms, w, m))
  }

  lemma LogOnlyGrows(ms: Members, w: World, a: Action)
    requires a.at in w.nodes && a.at in ms.cfgs
    ensures forall b, tx, from :: HandledFor(ms, w, b, tx, from) ==> HandledFor(ms, Act(ms, w, a), b, tx, from)
  {
    assert w.log <= Act(ms, w, a).log;
  }

  lemma ActorStaysOk(ms: Members, w: World, a: Action)
    requires ms.Valid() && WorldOk(ms, w) && Possible(ms, w, a)
    ensures NodeOk(ms, Act(ms, w, a), a.at, Act(ms, w, a).nodes[a.at])
  {
    var cfg, s, w' := ms.cfgs[a.at], w.nodes[a.at], Act(ms, w, a);
    var t := w'.nodes[a.at];
    assert NodeOk(ms, w, a.at, s);
    LogOnlyGrows(ms, w, a);
    if a.ev.GotPing? {
      assert MsgOk(ms, w, Ping(a.ev.ping));
    }
    forall v | v in t.peers ensures ms.IsTrue(v, t.peers[v].key) {
      EntriesComeFrom(cfg, s, a.ev, a.env, v);
    }
    forall tx | tx in t.pings ensures ms.owner(tx) == a.at {
      PingsComeFromSends(cfg, s, a.ev, a.env, tx);
    }
    forall v | Connected(t, v) ensures exists tx :: HandledFor(ms, w', t.peers[v].key, tx, a.at) {
      OnlyAnAnswerConnects(cfg, s, a.ev, a.env, v);
      if Connected(s, v) {
        var tx :| HandledFor(ms, w, s.peers[v].key, tx, a.at);
      } else {
        assert MsgOk(ms, w, Pong(a.ev.pong));
        EntriesComeFrom(cfg, s, a.ev, a.env, v);
        assert HandledFor(ms, w', t.peers[v].key, a.ev.pong.tx, a.at);
      }
    }
  }

  lemma NewMessagesAreOk(ms: Members, w: World, a: Action, m: Msg)
    requires ms.Valid() && WorldOk(ms, w) && Possible(ms, w, a)
    requires m in Act(ms, w, a).net && m !in w.net
    ensures MsgOk(ms, Act(ms, w, a), m)
  {
    var cfg, s, w' := ms.cfgs[a.at], w.nodes[a.at], Act(ms, w, a);
    assert NodeOk(ms, w, a.at, s);
    StepSends(cfg, s, a.ev, a.env);
    assert WellSent(cfg, s, a.ev, a.env, m);
    if m.Pong? {
      var p := a.ev.ping;
      assert MsgOk(ms, w, Ping(p));
      EntriesComeFrom(cfg, s, a.ev, a.env, p.senderVip);
      assert Holds(w'.nodes[a.at], p);
      assert Handled(a.at, p, true) in w'.log;
    }
  }

  lemma ActionKeepsWorldOk(ms: Members, w: World, a: Action)
    requires ms.Valid() && WorldOk(ms, w) && Possible(ms, w, a)
    ensures WorldOk(ms, Act(ms, w, a))
  {
    var w' := Act(ms, w, a);
    LogOnlyGrows(ms, w, a);
    forall k | k in w'.nodes ensures NodeOk(ms, w', k, w'.nodes[k]) {
      if k == a.at {
        ActorStaysOk(ms, w, a);
      } else {
        assert NodeOk(ms, w, k, w.nodes[k]);
        forall v | Connected(w.nodes[k], v) ensures exists tx :: HandledFor(ms, w', w.nodes[k].peers[v].key, tx, k) {
          var tx :| HandledFor(ms, w, w.nodes[k].peers[v].key, tx, k);
        }
      }
    }
    forall m | m in w'.net ensures MsgOk(ms, w', m) {
      if m in w.net {
        assert MsgOk(ms, w, m);
      } else {
        NewMessagesAreOk(ms, w, a, m);
      }
    }
  }

  lemma {:induction false} ReachableIsOk(ms: Members, w: World, actions: seq<Action>)
    requires ms.Valid() && Reachable(ms, w, actions)
    ensures WorldOk(ms, w)
    decreases |actions|
  {
    if actions != [] {
      var a := actions[|actions| - 1];
      var w' :| Reachable(ms, w', actions[..|actions| - 1]) && Follows(ms, w', a, w);
      ReachableIsOk(ms, w', actions[..|actions| - 1]);
      ActionKeepsWorldOk(ms, w', a);
    }
  }

  /** If node A holds address v as directly connected, then v is the address of the member B whose key A
      stores, and B has handled a ping of A at a moment when B's table held A's true address under A's
      true key: a direct connection is never one-sided knowledge. */
  lemma DirectMeansMutual(ms: Members, w: World, actions: seq<Action>, a: Key, v: Vip)
    requires ms.Valid() && Reachable(ms, w, actions)
    requires a in w.nodes && Connected(w.nodes[a], v)
    ensures var b := w.nodes[a].peers[v].key;
            && ms.IsTrue(v, b)
            && exists h :: h in w.log && h.node == b && h.held
                           && h.ping.senderKey == a && ms.IsTrue(h.ping.senderVip, a)
  {
    ReachableIsOk(ms, w, actions);
    assert NodeOk(ms, w, a, w.nodes[a]);
    var tx :| HandledFor(ms, w, w.nodes[a].peers[v].key, tx, a);
  }

  // ---- what an exchange achieves

  ghost predicate RankingsOk(ms: Members) { forall k :: k in ms.cfgs ==> RankingOk(ms.cfgs[k].best) }

  // Every node is safe, and the pings it waits for are in the network.
  ghost predicate WorldLive(ms: Members, w: World) {
    && w.nodes.Keys <= ms.cfgs.Keys
    && (forall k :: k in w.nodes ==> Safe(w.nodes[k]))
    && forall k, tx :: k in w.nodes && tx in w.nodes[k].pings ==> OurPing(ms.cfgs[k], tx) in w.net
  }

  lemma ActionKeepsLive(ms: Members, w: World, a: Action)
    requires RankingsOk(ms) && WorldLive(ms, w) && a.at in w.nodes && a.at in ms.cfgs
    ensures WorldLive(ms, Act(ms, w, a))
  {
    var cfg, s, w' := ms.cfgs[a.at], w.nodes[a.at], Act(ms, w, a);
    StepIsSafe(cfg, s, a.ev, a.env);
    forall tx | tx in w'.nodes[a.at].pings ensures OurPing(cfg, tx) in w'.net {
      PingsComeFromSends(cfg, s, a.ev, a.env, tx);
      if tx !in s.pings {
        var p :| p in Step(cfg, s, a.ev, a.env).sent && p.msg == OurPing(cfg, tx);
        assert p.msg in w'.net;
      }
    }
  }

  lemma {:induction false} ReachableIsLive(ms: Members, w: World, actions: seq<Action>)
    requires RankingsOk(ms) && Reachable(ms, w, actions)
    ensures WorldLive(ms, w)
    decreases |actions|
  {
    if actions != [] {
      var a := actions[|actions| - 1];
      var w' :| Reachable(ms, w', actions[..|actions| - 1]) && Follows(ms, w', a, w);
      ReachableIsLive(ms, w', actions[..|actions| - 1]);
      ActionKeepsLive(ms, w', a);
    }
  }

  /** w' can follow on w. */
  ghost predicate Later(ms: Members, w: World, w': World, actions: seq<Action>)
    decreases |actions|
  {
    if actions == [] then w' == w
    else
      var a := actions[|actions| - 1];
      exists u :: Later(ms, w, u, actions[..|actions| - 1]) && Follows(ms, u, a, w')
  }

  lemma {:induction false} LaterKeeps(ms: Members, w: World, w': World, actions: seq<Action>)
    requires RankingsOk(ms) && WorldLive(ms, w) && Later(ms, w, w', actions)
    ensures WorldLive(ms, w') && w.net <= w'.net
    decreases |actions|
  {
    if actions != [] {
      var a := actions[|actions| - 1];
      var u :| Later(ms, w, u, actions[..|actions| - 1]) && Follows(ms, u, a, w');
      LaterKeeps(ms, w, u, actions[..|actions| - 1]);
      ActionKeepsLive(ms, u, a);
    }
  }

  /** A ping that A waits for can reach anybody: the network has it. */
  lemma OutstandingIsOut(ms: Members, w: World, actions: seq<Action>, a: Key, tx: TxId)
    requires RankingsOk(ms) && Reachable(ms, w, actions) && a in w.nodes && tx in w.nodes[a].pings
    ensures a in ms.cfgs && Ping(PingMsg(tx, ms.cfgs[a].ourKey, ms.cfgs[a].ourVip, ms.cfgs[a].ourVip6)) in w.net
  {
    ReachableIsLive(ms, w, actions);
  }

  /** A completed exchange connects. B handles a ping with A's outstanding id, wherever it came from, and its
      reply is sent (first action). Whatever else happens in between, if A still waits for that id on
      behalf of v and holds v under B's key, then the reply can reach A, and when it does (last action) A
      holds v as DirectOk. */
  lemma ExchangeConnects(ms: Members, w0: World, past: seq<Action>, ping: Action, w1: World,
                         between: seq<Action>, w2: World, pong: Action, v: Vip)
    requires ms.Valid() && RankingsOk(ms) && Reachable(ms, w0, past)
    requires Follows(ms, w0, ping, w1) && ping.ev.GotPing? && ping.env.sendOk(0)
    requires Later(ms, w1, w2, between)
    requires pong.at in w2.nodes && pong.ev.GotPong? && forall k :: ms.owner(pong.env.tx(k)) == pong.at
    requires pong.ev.pong == PongMsg(ping.ev.ping.tx, ping.at)
    requires var s := w2.nodes[pong.at];
             var tx := ping.ev.ping.tx;
             tx in s.pings && s.pings[tx].vip == v && v in s.peers && s.peers[v].key == ping.at
    ensures pong.at in ms.cfgs && Possible(ms, w2, pong)
    ensures Connected(Act(ms, w2, pong).nodes[pong.at], v)
  {
    var cfg, m := ms.cfgs[ping.at], ping.ev.ping;
    var reply := Packet(SendAddr(cfg.macos, Normalize(ping.ev.src)), Pong(PongMsg(m.tx, cfg.ourKey)));
    ReachableIsLive(ms, w0, past);
    PingIsAnswered(cfg, w0.nodes[ping.at], ping.env, ping.ev.src, m, reply);
    assert reply.msg in w1.net;
    ActionKeepsLive(ms, w0, ping);
    LaterKeeps(ms, w1, w2, between);
    AnswerOutcome(ms.cfgs[pong.at], w2.nodes[pong.at], pong.env, pong.ev.src, pong.ev.pong, v);
  }
}
