/** Where the entries of the tables come from: statements about whole runs. */
module DispatcherHistory {
  import opened Common
  import opened Addresses
  import opened Endpoints
  import opened Peers
  import opened DispatcherSpec

  /** An answer the dispatcher acts on: it matches an outstanding ping for v, and the stored key. */
  ghost predicate Answers(s: Node, m: PongMsg, v: Vip) {
    m.tx in s.pings && s.pings[m.tx].vip == v && v in s.peers && m.responderKey == s.peers[v].key
  }

  // t is s after a step that lets no peer become directly connected and rebinds no key.
  ghost predicate Calm(s: Node, t: Node, v: Vip) {
    v in t.peers ==>
      && (v in s.peers ==> t.peers[v].key == s.peers[v].key)
      && (t.peers[v].state == DirectOk ==> v in s.peers && s.peers[v].state == DirectOk)
  }

  lemma {:induction false} TickIsCalm(cfg: Config, s: Node, env: Env, order: seq<TxId>, n: nat, v: Vip)
    requires n <= |order|
    ensures Calm(s, TickSome(cfg, s, env, order, n).node, v)
    ensures v in TickSome(cfg, s, env, order, n).node.peers <==> v in s.peers
  {
    if n > 0 {
      TickIsCalm(cfg, s, env, order, n - 1, v);
    }
  }

  lemma InfoIsCalm(cfg: Config, s: Node, env: Env, info: PeerInfo, ourNat: Option<NatType>, v: Vip)
    ensures Calm(s, OnPeerInfo(cfg, s, env, info, ourNat).node, v)
  {
    var q := Learn(cfg, Entry(s, info, ourNat), info, ourNat);
    assert q.key == Entry(s, info, ourNat).key && q.state in {Entry(s, info, ourNat).state, Init};
    PursueKeeps(cfg, s, env, info.vip, q, v);
  }

  lemma PursueKeeps(cfg: Config, s: Node, env: Env, u: Vip, q: Peer, v: Vip)
    ensures var t := Pursue(cfg, s, env, u, q).node;
            && t.peers.Keys == s.peers.Keys + {u}
            && t.peers[u].key == q.key
            && t.peers[u].state in {q.state, RelayTry, DirectTry}
            && (v in s.peers && v != u ==> t.peers[v] == s.peers[v])
  {
  }

  /** One step: a peer becomes directly connected only by an answer to an outstanding ping for it that
      carries its stored key, and as long as an entry stays its key does not change. */
  lemma OnlyAnAnswerConnects(cfg: Config, s: Node, ev: Event, env: Env, v: Vip)
    ensures var t := Step(cfg, s, ev, env).node;
            v in t.peers ==>
              && (v in s.peers ==> t.peers[v].key == s.peers[v].key)
              && (t.peers[v].state == DirectOk && !(v in s.peers && s.peers[v].state == DirectOk) ==>
                    ev.GotPong? && Answers(s, ev.pong, v))
  {
    match ev
    case GotPing(src, m) =>
    case GotPong(src, m) =>
    case GotAck(src, m, vips) =>
    case GotInfo(info, ourNat) => InfoIsCalm(cfg, s, env, info, ourNat, v);
    case GotRemoved(vips) =>
    case Tick(order) => TickIsCalm(cfg, s, env, order, |order|, v);
    case WgHandshake(key, at) =>
    case Disconnect =>
  }

  /** The state after the first i inputs of the run; after all of them it is Exec(cfg, START, run). */
  ghost function At(cfg: Config, run: seq<Input>, i: nat): Node
    requires i <= |run|
  {
    Exec(cfg, START, run[..i])
  }

  lemma Unroll(cfg: Config, run: seq<Input>, i: nat)
    requires i < |run|
    ensures At(cfg, run, i + 1) == Step(cfg, At(cfg, run, i), run[i].ev, run[i].env).node
    ensures At(cfg, run, |run|) == Exec(cfg, START, run)
  {
    assert run[..i + 1][..i] == run[..i];
    assert run[..|run|] == run;
  }

  lemma PrefixRun(cfg: Config, run: seq<Input>, n: nat)
    requires n <= |run|
    ensures forall j :: 0 <= j <= n ==> At(cfg, run[..n], j) == At(cfg, run, j)
  {
    forall j | 0 <= j <= n ensures At(cfg, run[..n], j) == At(cfg, run, j) {
      assert run[..n][..j] == run[..j];
    }
  }

  // ---- outstanding pings were sent

  /** Input j of the run sent our ping with this transaction id. */
  ghost predicate SentPing(cfg: Config, run: seq<Input>, j: nat, tx: TxId)
    requires j < |run|
  {
    SentIn(cfg, Step(cfg, At(cfg, run, j), run[j].ev, run[j].env), tx)
  }

  /** `d` is a ping this step started: for the peer of an update, or back to a peer just discovered. */
  ghost predicate Started(cfg: Config, s: Node, ev: Event, env: Env, tx: TxId, d: Pending) {
    && d.sentAt == env.now && d.retries == 0 && d.maxRetries == cfg.maxRetries
    && (exists k :: env.tx(k) == tx)
    && ((ev.GotInfo? && d.vip == ev.info.vip)
        || (ev.GotPing? && d.vip == ev.ping.senderVip && d.vip !in s.peers))
  }

  ghost predicate SentIn(cfg: Config, e: Effect, tx: TxId) { exists p :: p in e.sent && p.msg == OurPing(cfg, tx) }

  lemma {:induction false} ProbeSends(cfg: Config, s: Node, info: PeerInfo, ourNat: Option<NatType>, env: Env,
                                      r: ProbeRound, addrs: seq<SocketAddr>, n: nat, tx: TxId)
    requires n <= |addrs|
    ensures var q := Probe(cfg, r, env, info.vip, addrs, n);
            tx in q.pings ==>
              || (tx in r.pings && q.pings[tx] == r.pings[tx])
              || (Started(cfg, s, GotInfo(info, ourNat), env, tx, q.pings[tx]) && SentIn(cfg, Effect(s, q.sent), tx))
  {
    if n > 0 {
      ProbeSends(cfg, s, info, ourNat, env, r, addrs, n - 1, tx);
      var q, q' := Probe(cfg, r, env, info.vip, addrs, n), Probe(cfg, r, env, info.vip, addrs, n - 1);
      if env.sendOk(n - 1) && env.tx(n - 1) == tx {
        assert Packet(SendAddr(cfg.macos, addrs[n - 1]), OurPing(cfg, tx)) in q.sent;
      } else if SentIn(cfg, Effect(s, q'.sent), tx) {
        var p :| p in q'.sent && p.msg == OurPing(cfg, tx);
        assert p in q.sent;
      }
    }
  }

  lemma PursueSends(cfg: Config, s: Node, env: Env, info: PeerInfo, ourNat: Option<NatType>, p: Peer, tx: TxId)
    ensures var e := Pursue(cfg, s, env, info.vip, p);
            tx in e.node.pings ==>
              || (tx in s.pings && e.node.pings[tx] == s.pings[tx])
              || (Started(cfg, s, GotInfo(info, ourNat), env, tx, e.node.pings[tx]) && SentIn(cfg, e, tx))
  {
    var r := ProbeRound(p.eps, s.pings, {});
    ProbeSends(cfg, s, info, ourNat, env, r, Addrs(p.eps), |p.eps|, tx);
  }

  lemma {:induction false} TickKeepsPings(cfg: Config, s: Node, env: Env, order: seq<TxId>, n: nat)
    requires n <= |order|
    ensures TickSome(cfg, s, env, order, n).node.pings.Keys <= s.pings.Keys
  {
    if n > 0 {
      TickKeepsPings(cfg, s, env, order, n - 1);
    }
  }

  /** An outstanding ping was outstanding before the step (untouched, unless it was a tick), or the step
      started and sent it. */
  lemma PingsComeFromSends(cfg: Config, s: Node, ev: Event, env: Env, tx: TxId)
    ensures var e := Step(cfg, s, ev, env);
            tx in e.node.pings ==>
              || (tx in s.pings && (ev.Tick? || e.node.pings[tx] == s.pings[tx]))
              || (Started(cfg, s, ev, env, tx, e.node.pings[tx]) && SentIn(cfg, e, tx))
  {
    match ev
    case GotPing(src, m) =>
      var e := Step(cfg, s, ev, env);
      if m.senderVip !in s.peers && env.sendOk(1) {
        assert Packet(SendAddr(cfg.macos, Normalize(src)), OurPing(cfg, env.tx(1))) in e.sent;
      }
    case GotPong(src, m) =>
    case GotAck(src, m, vips) =>
    case GotInfo(info, ourNat) =>
      PursueSends(cfg, s, env, info, ourNat, Learn(cfg, Entry(s, info, ourNat), info, ourNat), tx);
    case GotRemoved(vips) =>
    case Tick(order) => TickKeepsPings(cfg, s, env, order, |order|);
    case WgHandshake(key, at) =>
    case Disconnect =>
  }

  lemma {:induction false} OutstandingWasSent(cfg: Config, run: seq<Input>, n: nat, tx: TxId)
    requires n <= |run| && tx in At(cfg, run, n).pings
    ensures exists j :: 0 <= j < n && SentPing(cfg, run, j, tx)
  {
    if n > 0 {
      Unroll(cfg, run, n - 1);
      PingsComeFromSends(cfg, At(cfg, run, n - 1), run[n - 1].ev, run[n - 1].env, tx);
      if tx in At(cfg, run, n - 1).pings {
        OutstandingWasSent(cfg, run, n - 1, tx);
      } else {
        assert SentPing(cfg, run, n - 1, tx);
      }
    }
  }

  lemma {:induction false} Ascend(i: nat, n: nat, p: nat -> bool)
    requires i <= n && p(i) && forall j :: i <= j < n && p(j) ==> p(j + 1)
    ensures p(n)
  {
    if i < n {
      Ascend(i, n - 1, p);
    }
  }

  /** What every step from state i on keeps holds from there on. */
  lemma {:induction false} Carry(states: seq<Node>, i: nat, n: nat, p: Node -> bool)
    requires i <= n < |states| && p(states[i])
    requires forall j :: i <= j < n && p(states[j]) ==> p(states[j + 1])
    ensures p(states[n])
  {
    if i < n {
      Carry(states, i, n - 1, p);
      assert p(states[n - 1 + 1]);
    }
  }

  // What OnlyAnAnswerConnects says of one step.
  ghost predicate Edge(s: Node, ev: Event, t: Node, v: Vip) {
    v in t.peers ==>
      && (v in s.peers ==> t.peers[v].key == s.peers[v].key)
      && (t.peers[v].state == DirectOk && !Connected(s, v) ==> ev.GotPong? && Answers(s, ev.pong, v))
  }

  ghost predicate Connected(s: Node, v: Vip) { v in s.peers && s.peers[v].state == DirectOk }

  /** All states of the run, from START on. */
  ghost function States(cfg: Config, run: seq<Input>): seq<Node> {
    seq(|run| + 1, i requires 0 <= i <= |run| => At(cfg, run, i))
  }

  /** Input i of the run was an answer for v, carrying v's key, and v has been directly connected since. */
  ghost predicate EarnedAt(states: seq<Node>, run: seq<Input>, i: nat, v: Vip)
    requires |states| == |run| + 1 && i < |run|
  {
    && run[i].ev.GotPong?
    && Answers(states[i], run[i].ev.pong, v)
    && (forall j :: i < j <= |run| ==> Connected(states[j], v))
    && states[|run|].peers[v].key == run[i].ev.pong.responderKey
  }

  lemma {:induction false} ConnectedSince(states: seq<Node>, run: seq<Input>, v: Vip) returns (i: nat)
    requires |states| == |run| + 1 && v !in states[0].peers
    requires forall j :: 0 <= j < |run| ==> Edge(states[j], run[j].ev, states[j + 1], v)
    requires Connected(states[|run|], v)
    ensures i < |run| && EarnedAt(states, run, i, v)
    decreases |run|
  {
    var n := |run| - 1;
    assert Edge(states[n], run[n].ev, states[n + 1], v);
    if Connected(states[n], v) {
      i := ConnectedSince(states[..n + 1], run[..n], v);
    } else {
      i := n;
    }
  }

  lemma RunHasEdges(cfg: Config, run: seq<Input>, v: Vip)
    ensures var states := States(cfg, run);
            forall j :: 0 <= j < |run| ==> Edge(states[j], run[j].ev, states[j + 1], v)
  {
    forall j | 0 <= j < |run| ensures Edge(At(cfg, run, j), run[j].ev, At(cfg, run, j + 1), v) {
      Unroll(cfg, run, j);
      OnlyAnAnswerConnects(cfg, At(cfg, run, j), run[j].ev, run[j].env, v);
    }
  }

  lemma {:induction false} KeyAlong(states: seq<Node>, run: seq<Input>, i: nat, v: Vip)
    requires |states| == |run| + 1 && i <= |run|
    requires forall j :: i <= j < |run| ==> Edge(states[j], run[j].ev, states[j + 1], v)
    requires forall j :: i <= j <= |run| ==> v in states[j].peers
    ensures states[|run|].peers[v].key == states[i].peers[v].key
    decreases |run|
  {
    if i < |run| {
      var n := |run| - 1;
      KeyAlong(states[..n + 1], run[..n], i, v);
      assert Edge(states[n], run[n].ev, states[n + 1], v);
    }
  }

  /** While a VIP stays in the table, from input i on, its key is the one it had at input i. */
  lemma KeyNeverChanges(cfg: Config, run: seq<Input>, i: nat, v: Vip)
    requires i <= |run| && forall j :: i <= j <= |run| ==> v in At(cfg, run, j).peers
    ensures At(cfg, run, |run|).peers[v].key == At(cfg, run, i).peers[v].key
  {
    RunHasEdges(cfg, run, v);
    KeyAlong(States(cfg, run), run, i, v);
  }

  /** Every direct connection was earned: this node sent a ping (input j), an answer came back with the
      transaction id of that ping and the key of the peer (input i), and the peer stayed connected. */
  lemma DirectOkIsEarned(cfg: Config, run: seq<Input>, v: Vip)
    requires Connected(At(cfg, run, |run|), v)
    ensures exists i, j :: 0 <= j < i < |run| && EarnedAt(States(cfg, run), run, i, v)
                           && SentPing(cfg, run, j, run[i].ev.pong.tx)
  {
    RunHasEdges(cfg, run, v);
    var i := ConnectedSince(States(cfg, run), run, v);
    OutstandingWasSent(cfg, run, i, run[i].ev.pong.tx);
  }
}
