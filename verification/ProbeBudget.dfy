/** The fallback over whole runs. What decides it is a budget that every endpoint has and that nothing but
    an answer, an update or a new address can change: the probes it had, plus the retries its pings have
    left (crates/omni-core/src/manager.rs:2125-2355, 2405-2504). */
module ProbeBudget {
  import opened Common
  import opened Addresses
  import opened Endpoints
  import opened Peers
  import opened DispatcherSpec
  import opened DispatcherSafety
  import opened DispatcherHistory
  import opened DispatcherTiming
  import opened RelayFallback

  // ---- sums over the outstanding pings

  /** The retries a ping has left. */
  function Remaining(d: Pending): nat { if d.retries < d.maxRetries then d.maxRetries - d.retries else 0 }

  /** What ping tx will still contribute to the probes of v at a. */
  function Share(pings: map<TxId, Pending>, tx: TxId, v: Vip, a: SocketAddr): nat {
    if tx in pings && pings[tx].vip == v && pings[tx].target == a then Remaining(pings[tx]) else 0
  }

  ghost function Pick(txs: set<TxId>): TxId
    requires txs != {}
  {
    var tx :| tx in txs; tx
  }

  ghost function Sum(pings: map<TxId, Pending>, txs: set<TxId>, v: Vip, a: SocketAddr): nat {
    if txs == {} then 0 else Share(pings, Pick(txs), v, a) + Sum(pings, txs - {Pick(txs)}, v, a)
  }

  lemma {:induction false} SumSplit(pings: map<TxId, Pending>, txs: set<TxId>, v: Vip, a: SocketAddr, tx: TxId)
    requires tx in txs
    ensures Sum(pings, txs, v, a) == Share(pings, tx, v, a) + Sum(pings, txs - {tx}, v, a)
    decreases txs
  {
    var p := Pick(txs);
    if p != tx {
      SumSplit(pings, txs - {p}, v, a, tx);
      SumSplit(pings, txs - {tx}, v, a, p);
      assert txs - {p} - {tx} == txs - {tx} - {p};
    }
  }

  lemma {:induction false} SumAgrees(p: map<TxId, Pending>, q: map<TxId, Pending>, txs: set<TxId>,
                                     v: Vip, a: SocketAddr)
    requires forall tx :: tx in txs ==> Share(p, tx, v, a) == Share(q, tx, v, a)
    ensures Sum(p, txs, v, a) == Sum(q, txs, v, a)
    decreases txs
  {
    if txs != {} {
      SumAgrees(p, q, txs - {Pick(txs)}, v, a);
    }
  }

  // Ids without a share do not matter.
  lemma {:induction false} SumExtends(pings: map<TxId, Pending>, txs: set<TxId>, all: set<TxId>, v: Vip, a: SocketAddr)
    requires txs <= all && forall tx :: tx in all - txs ==> Share(pings, tx, v, a) == 0
    ensures Sum(pings, all, v, a) == Sum(pings, txs, v, a)
    decreases all
  {
    if tx :| tx in all && tx !in txs {
      SumSplit(pings, all, v, a, tx);
      SumExtends(pings, txs, all - {tx}, v, a);
    } else {
      assert all == txs;
    }
  }

  ghost function Due(pings: map<TxId, Pending>, v: Vip, a: SocketAddr): nat { Sum(pings, pings.Keys, v, a) }

  // Tables that differ in one ping differ in its share.
  lemma DueMoves(p: map<TxId, Pending>, q: map<TxId, Pending>, v: Vip, a: SocketAddr, tx: TxId)
    requires forall y :: y != tx ==> Share(p, y, v, a) == Share(q, y, v, a)
    ensures Due(p, v, a) + Share(q, tx, v, a) == Due(q, v, a) + Share(p, tx, v, a)
  {
    var all := p.Keys + q.Keys + {tx};
    SumExtends(p, p.Keys, all, v, a);
    SumExtends(q, q.Keys, all, v, a);
    SumSplit(p, all, v, a, tx);
    SumSplit(q, all, v, a, tx);
    SumAgrees(p, q, all - {tx}, v, a);
  }

  lemma DueAgrees(p: map<TxId, Pending>, q: map<TxId, Pending>, v: Vip, a: SocketAddr)
    requires forall tx :: Share(p, tx, v, a) == Share(q, tx, v, a)
    ensures Due(p, v, a) == Due(q, v, a)
  {
    DueMoves(p, q, v, a, 0);
  }

  lemma QuietOwesNothing(s: Node, v: Vip, a: SocketAddr)
    requires Quiet(s, v)
    ensures Due(s.pings, v, a) == 0
  {
    forall tx ensures Share(s.pings, tx, v, a) == 0 {
      assert !PingFor(s, v, tx);
    }
    SumExtends(s.pings, {}, s.pings.Keys, v, a);
  }

  // ---- the budget

  /** The probes e will have had when its pings are spent. */
  ghost function Budget(s: Node, v: Vip, e: Endpoint): nat { e.probes + Due(s.pings, v, e.addr) }

  /** t has the endpoints of s with the same budgets, and no endpoint lost a probe. */
  ghost predicate SameBudgets(s: Node, t: Node, v: Vip) {
    && v in s.peers && v in t.peers && |t.peers[v].eps| == |s.peers[v].eps|
    && forall i :: 0 <= i < |s.peers[v].eps| ==> SameBudget(s, t, v, s.peers[v].eps[i], t.peers[v].eps[i])
  }

  ghost predicate SameBudget(s: Node, t: Node, v: Vip, e: Endpoint, f: Endpoint) {
    f.addr == e.addr && f.probes >= e.probes && Budget(t, v, f) == Budget(s, v, e)
  }

  lemma TickOneConserves(cfg: Config, s: Node, env: Env, tx: TxId, v: Vip)
    requires v in s.peers
    ensures SameBudgets(s, TickOne(cfg, s, env, tx).node, v)
  {
    var t := TickOne(cfg, s, env, tx).node;
    forall i | 0 <= i < |s.peers[v].eps| ensures SameBudget(s, t, v, s.peers[v].eps[i], t.peers[v].eps[i]) {
      DueMoves(s.pings, t.pings, v, s.peers[v].eps[i].addr, tx);
    }
  }

  /** A tick moves retries into probes and loses none. */
  lemma {:induction false} TickConserves(cfg: Config, s: Node, env: Env, order: seq<TxId>, n: nat, v: Vip)
    requires v in s.peers && n <= |order|
    ensures SameBudgets(s, TickSome(cfg, s, env, order, n).node, v)
  {
    if n > 0 {
      var u := TickSome(cfg, s, env, order, n - 1).node;
      TickConserves(cfg, s, env, order, n - 1, v);
      TickOneConserves(cfg, u, env, order[n - 1], v);
      BudgetsChain(s, u, TickOne(cfg, u, env, order[n - 1]).node, v);
    }
  }

  lemma BudgetsChain(s: Node, t: Node, u: Node, v: Vip)
    requires SameBudgets(s, t, v) && SameBudgets(t, u, v)
    ensures SameBudgets(s, u, v)
  {
    forall i | 0 <= i < |s.peers[v].eps| ensures SameBudget(s, u, v, s.peers[v].eps[i], u.peers[v].eps[i]) {
      assert SameBudget(s, t, v, s.peers[v].eps[i], t.peers[v].eps[i]);
      assert SameBudget(t, u, v, t.peers[v].eps[i], u.peers[v].eps[i]);
    }
  }

  lemma KeepsConserves(s: Node, t: Node, v: Vip)
    requires Keeps(s, t, v) && forall tx :: PingFor(t, v, tx) ==> PingFor(s, v, tx)
    ensures SameBudgets(s, t, v)
  {
    forall i | 0 <= i < |s.peers[v].eps| ensures SameBudget(s, t, v, s.peers[v].eps[i], t.peers[v].eps[i]) {
      forall tx ensures Share(s.pings, tx, v, s.peers[v].eps[i].addr) == Share(t.pings, tx, v, s.peers[v].eps[i].addr) {
        assert PingFor(s, v, tx) <==> PingFor(t, v, tx);
      }
      DueAgrees(s.pings, t.pings, v, s.peers[v].eps[i].addr);
    }
  }

  /** Every endpoint of v will have had enough probes for the relay. */
  ghost predicate Enough(s: Node, v: Vip)
    requires v in s.peers
  {
    forall i :: 0 <= i < |s.peers[v].eps| ==> Budget(s, v, s.peers[v].eps[i]) >= PROBES_BEFORE_RELAY
  }

  lemma NeedMeansEnough(s: Node, t: Node, v: Vip)
    requires SameBudgets(s, t, v) && NeedsRelay(t.peers[v].eps)
    ensures Enough(s, v)
  {
    forall i | 0 <= i < |s.peers[v].eps| ensures Budget(s, v, s.peers[v].eps[i]) >= PROBES_BEFORE_RELAY {
      assert SameBudget(s, t, v, s.peers[v].eps[i], t.peers[v].eps[i]);
    }
  }

  lemma NeedGrows(s: Node, t: Node, v: Vip)
    requires SameBudgets(s, t, v) && NeedsRelay(s.peers[v].eps) && !HasWorking(t.peers[v].eps)
    ensures NeedsRelay(t.peers[v].eps)
  {
    forall i | 0 <= i < |t.peers[v].eps| ensures t.peers[v].eps[i].probes >= PROBES_BEFORE_RELAY {
      assert SameBudget(s, t, v, s.peers[v].eps[i], t.peers[v].eps[i]);
    }
  }

  lemma EnoughIsNeeded(s: Node, t: Node, v: Vip)
    requires SameBudgets(s, t, v) && Enough(s, v) && Quiet(t, v)
    requires t.peers[v].eps != [] && !HasWorking(t.peers[v].eps)
    ensures NeedsRelay(t.peers[v].eps)
  {
    forall i | 0 <= i < |t.peers[v].eps| ensures t.peers[v].eps[i].probes >= PROBES_BEFORE_RELAY {
      assert SameBudget(s, t, v, s.peers[v].eps[i], t.peers[v].eps[i]);
      QuietOwesNothing(t, v, t.peers[v].eps[i].addr);
    }
  }

  // ---- undisturbed runs

  ghost predicate Undecided(state: ConnState) { state in {Init, DirectTry, DirectOk} }

  /** What undisturbed steps from u keep: the budgets; that a peer without pings and in need of the relay is
      given up; and that a peer not yet given up is in the state it had at u. */
  ghost predicate OnCourse(cfg: Config, u: Node, s: Node, v: Vip) {
    && SameBudgets(u, s, v) && s.peers[v].eps != [] && !HasWorking(s.peers[v].eps)
    && (Quiet(s, v) && NeedsRelay(s.peers[v].eps) ==> GivenUp(cfg, s.peers[v].state))
    && (Undecided(u.peers[v].state) ==>
          s.peers[v].state == u.peers[v].state || (NeedsRelay(s.peers[v].eps) && GivenUp(cfg, s.peers[v].state)))
  }

  lemma TickKeepsCourse(cfg: Config, u: Node, s: Node, env: Env, order: seq<TxId>, v: Vip)
    requires OnCourse(cfg, u, s, v)
    ensures OnCourse(cfg, u, OnTick(cfg, s, env, order).node, v)
  {
    var t := OnTick(cfg, s, env, order).node;
    if Quiet(s, v) {
      QuietTick(cfg, s, env, order, |order|, v);
    } else {
      TickVerdict(cfg, s, env, order, |order|, v);
    }
    TickConserves(cfg, s, env, order, |order|, v);
    BudgetsChain(u, s, t, v);
    if NeedsRelay(s.peers[v].eps) {
      NeedGrows(s, t, v);
    }
  }

  lemma StepKeepsCourse(cfg: Config, u: Node, s: Node, inp: Input, v: Vip)
    requires OnCourse(cfg, u, s, v) && Undisturbed(s, inp, v)
    ensures OnCourse(cfg, u, Step(cfg, s, inp.ev, inp.env).node, v)
  {
    var t := Step(cfg, s, inp.ev, inp.env).node;
    if inp.ev.Tick? {
      TickKeepsCourse(cfg, u, s, inp.env, inp.ev.order, v);
    } else {
      CalmInputKeeps(cfg, s, inp, v);
      NoNewPings(cfg, s, inp, v);
      KeepsCourse(cfg, u, s, t, v);
    }
  }

  lemma KeepsCourse(cfg: Config, u: Node, s: Node, t: Node, v: Vip)
    requires OnCourse(cfg, u, s, v) && Keeps(s, t, v) && forall tx :: PingFor(t, v, tx) ==> PingFor(s, v, tx)
    ensures OnCourse(cfg, u, t, v)
  {
    KeepsConserves(s, t, v);
    BudgetsChain(u, s, t, v);
    assert NeedsRelay(t.peers[v].eps) <==> NeedsRelay(s.peers[v].eps);
    if Quiet(t, v) {
      forall tx ensures !PingFor(s, v, tx) {
        assert !PingFor(t, v, tx);
      }
    }
  }

  ghost predicate UndisturbedSince(cfg: Config, run: seq<Input>, u: nat, v: Vip) {
    forall j :: u <= j < |run| ==> Undisturbed(At(cfg, run, j), run[j], v)
  }

  // On course, and v's pings were all drawn before input u.
  ghost predicate CourseAt(cfg: Config, run: seq<Input>, u: nat, n: nat, v: Vip)
    requires u <= n <= |run|
  {
    && OnCourse(cfg, At(cfg, run, u), At(cfg, run, n), v)
    && forall tx :: PingFor(At(cfg, run, n), v, tx) ==> forall j :: u <= j < n ==> !Draws(run[j], tx)
  }

  lemma CourseStep(cfg: Config, run: seq<Input>, u: nat, n: nat, v: Vip)
    requires u <= n < |run| && CourseAt(cfg, run, u, n, v) && Undisturbed(At(cfg, run, n), run[n], v)
    ensures CourseAt(cfg, run, u, n + 1, v)
  {
    Unroll(cfg, run, n);
    StepKeepsCourse(cfg, At(cfg, run, u), At(cfg, run, n), run[n], v);
    NoNewPings(cfg, At(cfg, run, n), run[n], v);
  }

  lemma CourseHolds(cfg: Config, run: seq<Input>, u: nat, v: Vip)
    requires u <= |run| && UndisturbedSince(cfg, run, u, v) && CourseAt(cfg, run, u, u, v)
    ensures CourseAt(cfg, run, u, |run|, v)
  {
    forall n | u <= n < |run| && CourseAt(cfg, run, u, n, v) ensures CourseAt(cfg, run, u, n + 1, v) {
      CourseStep(cfg, run, u, n, v);
    }
    Ascend(u, |run|, (n: nat) => u <= n <= |run| && CourseAt(cfg, run, u, n, v));
  }

  ghost predicate Idle(s: Node, v: Vip) { v in s.peers && s.peers[v].eps != [] && !HasWorking(s.peers[v].eps) }

  lemma CourseBegins(cfg: Config, s: Node, v: Vip)
    requires Idle(s, v) && (Quiet(s, v) ==> !NeedsRelay(s.peers[v].eps))
    ensures OnCourse(cfg, s, s, v)
  {
  }

  /** The relay fallback is reached in time exactly when the budgets suffice. Take a peer with outstanding
      pings and no working endpoint, and let nothing disturb it for (max_retries + 1) * (ping timeout + tick
      period). If every endpoint had a budget of three, the peer is then in RelayTry or has gone on to
      RelayOk or Failed (without a relay: is in Failed). If not, a peer that was still being tried is not,
      and its state is what it was. */
  lemma FallbackInTime(cfg: Config, run: seq<Input>, period: nat, u: nat, v: Vip)
    requires Punctual(cfg, run, period) && u <= |run| && UndisturbedSince(cfg, run, u, v)
    requires Idle(At(cfg, run, u), v) && !Quiet(At(cfg, run, u), v)
    requires Now(run) > Now(run[..u]) + Lifetime(cfg, period)
    ensures var s, t := At(cfg, run, u), At(cfg, run, |run|);
            && v in t.peers && Quiet(t, v)
            && (Enough(s, v) ==> GivenUp(cfg, t.peers[v].state))
            && (Undecided(s.peers[v].state) && !Enough(s, v) ==> t.peers[v].state == s.peers[v].state)
  {
    var s, t := At(cfg, run, u), At(cfg, run, |run|);
    CourseBegins(cfg, s, v);
    CourseHolds(cfg, run, u, v);
    forall tx ensures !PingFor(t, v, tx) {
      if PingFor(t, v, tx) {
        PingsExpireInTime(cfg, run, period, u, tx);
      }
    }
    if Enough(s, v) {
      EnoughIsNeeded(s, t, v);
    } else if NeedsRelay(t.peers[v].eps) {
      NeedMeansEnough(s, t, v);
    }
  }

  /** No time helps a short budget: while one endpoint is short, for instance one that no ping aims at, a
      peer still being tried stays in its state over every undisturbed run. */
  lemma ShortBudgetNeverFallsBack(cfg: Config, run: seq<Input>, u: nat, v: Vip)
    requires u <= |run| && UndisturbedSince(cfg, run, u, v)
    requires Idle(At(cfg, run, u), v) && Undecided(At(cfg, run, u).peers[v].state) && !Enough(At(cfg, run, u), v)
    ensures var s, t := At(cfg, run, u), At(cfg, run, |run|);
            v in t.peers && t.peers[v].state == s.peers[v].state
  {
    var s, t := At(cfg, run, u), At(cfg, run, |run|);
    assert SameBudgets(s, s, v);
    if NeedsRelay(s.peers[v].eps) {
      NeedMeansEnough(s, s, v);
    }
    CourseBegins(cfg, s, v);
    CourseHolds(cfg, run, u, v);
    if NeedsRelay(t.peers[v].eps) {
      NeedMeansEnough(s, t, v);
    }
  }

  // ---- where budgets come from

  ghost predicate Fresh(s: Node, env: Env) {
    && (forall k :: env.tx(k) !in s.pings)
    && forall i, j :: 0 <= i < j ==> env.tx(i) != env.tx(j)
  }

  function Granted(cfg: Config, sent: bool): nat { if sent then 1 + cfg.maxRetries else 0 }

  lemma {:induction false} ProbeDraws(cfg: Config, r: ProbeRound, env: Env, v: Vip, addrs: seq<SocketAddr>,
                                      n: nat, tx: TxId)
    requires n <= |addrs| && tx in Probe(cfg, r, env, v, addrs, n).pings
    ensures tx in r.pings || exists j :: 0 <= j < n && env.tx(j) == tx
  {
    if n > 0 && tx != env.tx(n - 1) {
      ProbeDraws(cfg, r, env, v, addrs, n - 1, tx);
    }
  }

  // The round so far has granted endpoint i its probe and its retries, if its ping was sent.
  ghost predicate GrantedAt(cfg: Config, r: ProbeRound, q: ProbeRound, env: Env, v: Vip, n: nat, i: nat)
    requires i < |r.eps|
  {
    && |q.eps| == |r.eps| && q.eps[i].addr == r.eps[i].addr
    && q.eps[i].probes + Due(q.pings, v, r.eps[i].addr)
       == r.eps[i].probes + Due(r.pings, v, r.eps[i].addr) + Granted(cfg, i < n && env.sendOk(i))
  }

  lemma {:induction false} ProbeGrants(cfg: Config, r: ProbeRound, env: Env, v: Vip, n: nat, i: nat)
    requires n <= |r.eps| && i < |r.eps|
    requires forall j, k :: 0 <= j < k < |r.eps| ==> r.eps[j].addr != r.eps[k].addr
    requires forall k :: env.tx(k) !in r.pings
    requires forall j, k :: 0 <= j < k ==> env.tx(j) != env.tx(k)
    ensures GrantedAt(cfg, r, Probe(cfg, r, env, v, Addrs(r.eps), n), env, v, n, i)
  {
    if n > 0 {
      var addrs := Addrs(r.eps);
      var p, q := Probe(cfg, r, env, v, addrs, n - 1), Probe(cfg, r, env, v, addrs, n);
      ProbeGrants(cfg, r, env, v, n - 1, i);
      if env.tx(n - 1) in p.pings {
        ProbeDraws(cfg, r, env, v, addrs, n - 1, env.tx(n - 1));
      }
      DueMoves(p.pings, q.pings, v, r.eps[i].addr, env.tx(n - 1));
    }
  }

  /** An update that probes leaves the peer in DirectTry and grants every endpoint one probe and
      max_retries more exactly if its ping was sent; what older pings owed it stays. */
  lemma UpdateGrants(cfg: Config, s: Node, env: Env, info: PeerInfo, ourNat: Option<NatType>)
    requires Safe(s) && Fresh(s, env)
    requires var p := Learn(cfg, Entry(s, info, ourNat), info, ourNat);
             !HasWorking(p.eps) && p.strategy != RelayOnly && p.eps != []
    ensures var p := Learn(cfg, Entry(s, info, ourNat), info, ourNat);
            var t := OnPeerInfo(cfg, s, env, info, ourNat).node;
            && Idle(t, info.vip) && t.peers[info.vip].state == DirectTry && |t.peers[info.vip].eps| == |p.eps|
            && forall i :: 0 <= i < |p.eps| ==>
                 && t.peers[info.vip].eps[i].addr == p.eps[i].addr
                 && Budget(t, info.vip, t.peers[info.vip].eps[i])
                    == Budget(s, info.vip, p.eps[i]) + Granted(cfg, env.sendOk(i))
  {
    var v, p := info.vip, Learn(cfg, Entry(s, info, ourNat), info, ourNat);
    EntryIsSafe(s, info, ourNat);
    LearnIsSafe(cfg, v, Entry(s, info, ourNat), info, ourNat, s.sessions, s.tun.known);
    PursueGrants(cfg, s, env, v, p);
  }

  lemma PursueGrants(cfg: Config, s: Node, env: Env, v: Vip, p: Peer)
    requires EpsOk(p.eps) && Fresh(s, env) && !HasWorking(p.eps) && p.strategy != RelayOnly && p.eps != []
    ensures var t := Pursue(cfg, s, env, v, p).node;
            && Idle(t, v) && t.peers[v].state == DirectTry && |t.peers[v].eps| == |p.eps|
            && forall i :: 0 <= i < |p.eps| ==>
                 && t.peers[v].eps[i].addr == p.eps[i].addr
                 && Budget(t, v, t.peers[v].eps[i]) == Budget(s, v, p.eps[i]) + Granted(cfg, env.sendOk(i))
  {
    var r := ProbeRound(p.eps, s.pings, {});
    var q := Probe(cfg, r, env, v, Addrs(p.eps), |p.eps|);
    ProbeAddsNoWorking(cfg, r, env, v, Addrs(p.eps), |p.eps|);
    forall i | 0 <= i < |p.eps| ensures GrantedAt(cfg, r, q, env, v, |p.eps|, i) {
      ProbeGrants(cfg, r, env, v, |p.eps|, i);
    }
    assert GrantedAt(cfg, r, q, env, v, |p.eps|, 0);
    var t := Pursue(cfg, s, env, v, p).node;
    assert t.peers[v].eps == q.eps && t.pings == q.pings;
    forall i | 0 <= i < |p.eps|
      ensures t.peers[v].eps[i].addr == p.eps[i].addr
      ensures Budget(t, v, t.peers[v].eps[i]) == Budget(s, v, p.eps[i]) + Granted(cfg, env.sendOk(i))
    {
      assert GrantedAt(cfg, r, q, env, v, |p.eps|, i);
    }
  }

  /** A peer discovered by its own ping has one endpoint. The ping back is not counted as a probe of it, so
      it grants max_retries only. */
  lemma DiscoveryGrants(cfg: Config, s: Node, env: Env, src: SocketAddr, m: PingMsg)
    requires m.senderVip !in s.peers && env.tx(1) !in s.pings
    ensures var v, a := m.senderVip, Normalize(src);
            var t := OnPing(cfg, s, env, src, m).node;
            && Idle(t, v) && t.peers[v].state == DirectTry
            && t.peers[v].eps == [Endpoint(a, DirectProbe, Untried, 0, None)]
            && Budget(t, v, t.peers[v].eps[0]) == Due(s.pings, v, a) + (if env.sendOk(1) then cfg.maxRetries else 0)
            && (Stalled(t, v) <==> Quiet(s, v) && !env.sendOk(1))
  {
    var v, a := m.senderVip, Normalize(src);
    var t := OnPing(cfg, s, env, src, m).node;
    DiscoverIsSafe(m, a, env.now, s.sessions, s.tun.known);
    DueMoves(s.pings, t.pings, v, a, env.tx(1));
    if env.sendOk(1) {
      assert PingFor(t, v, env.tx(1));
    } else {
      assert t.pings == s.pings;
      QuietIff(s, v);
      QuietIff(t, v);
    }
  }

  ghost predicate Pinged(pings: map<TxId, Pending>, v: Vip) { exists tx :: tx in pings && pings[tx].vip == v }

  lemma QuietIff(s: Node, v: Vip)
    ensures Quiet(s, v) <==> !Pinged(s.pings, v)
  {
    forall tx | PingFor(s, v, tx) ensures Pinged(s.pings, v) {
    }
    if Pinged(s.pings, v) {
      var tx :| tx in s.pings && s.pings[tx].vip == v;
      assert PingFor(s, v, tx);
    }
  }

  lemma {:induction false} ProbePings(cfg: Config, r: ProbeRound, env: Env, v: Vip, addrs: seq<SocketAddr>, n: nat)
    requires n <= |addrs|
    ensures Pinged(Probe(cfg, r, env, v, addrs, n).pings, v) <==>
            Pinged(r.pings, v) || exists i :: 0 <= i < n && env.sendOk(i)
  {
    if n > 0 {
      var p, q := Probe(cfg, r, env, v, addrs, n - 1), Probe(cfg, r, env, v, addrs, n);
      ProbePings(cfg, r, env, v, addrs, n - 1);
      if env.sendOk(n - 1) {
        assert env.tx(n - 1) in q.pings && q.pings[env.tx(n - 1)].vip == v;
      } else {
        assert q.pings == p.pings;
      }
    }
  }

  /** An update stalls its peer exactly when the peer has no older ping and either no ping of the round is
      sent (in particular when no endpoint is known and the strategy is not Direct), or it was in DirectTry
      with nothing to probe and stays so under the Direct strategy. */
  lemma UpdateStallsIff(cfg: Config, s: Node, env: Env, info: PeerInfo, ourNat: Option<NatType>)
    requires Safe(s)
    ensures var p := Learn(cfg, Entry(s, info, ourNat), info, ourNat);
            Stalled(OnPeerInfo(cfg, s, env, info, ourNat).node, info.vip) <==>
            && Quiet(s, info.vip) && !HasWorking(p.eps) && p.strategy != RelayOnly
            && if p.strategy == Direct && p.eps == [] then p.state == DirectTry
               else forall i :: 0 <= i < |p.eps| ==> !env.sendOk(i)
  {
    var v, p := info.vip, Learn(cfg, Entry(s, info, ourNat), info, ourNat);
    var t := OnPeerInfo(cfg, s, env, info, ourNat).node;
    EntryIsSafe(s, info, ourNat);
    LearnIsSafe(cfg, v, Entry(s, info, ourNat), info, ourNat, s.sessions, s.tun.known);
    if !HasWorking(p.eps) && p.strategy != RelayOnly && !(p.strategy == Direct && p.eps == []) {
      ProbePings(cfg, ProbeRound(p.eps, s.pings, {}), env, v, Addrs(p.eps), |p.eps|);
    } else {
      assert t.pings == s.pings;
    }
    QuietIff(s, v);
    QuietIff(t, v);
  }

  // v is being probed and its only budget is what this environment granted.
  ghost predicate OnlyGranted(t: Node, v: Vip, env: Env) {
    && Idle(t, v) && t.peers[v].state == DirectTry
    && (Enough(t, v) <==> forall i :: 0 <= i < |t.peers[v].eps| ==> env.sendOk(i))
    && (Quiet(t, v) <==> forall i :: 0 <= i < |t.peers[v].eps| ==> !env.sendOk(i))
  }

  /** The update is the first that is heard of its peer, and the peer is to be probed. */
  ghost predicate Newcomer(s: Node, env: Env, info: PeerInfo, ourNat: Option<NatType>) {
    && Fresh(s, env) && info.vip !in s.peers && Quiet(s, info.vip)
    && (info.endpoint.Some? || info.mapped.Some?) && SelectStrategy(ourNat, info.natType) != RelayOnly
  }

  lemma NewcomerStarts(cfg: Config, s: Node, env: Env, info: PeerInfo, ourNat: Option<NatType>)
    requires Safe(s) && Newcomer(s, env, info, ourNat) && cfg.maxRetries + 1 >= PROBES_BEFORE_RELAY
    ensures OnlyGranted(OnPeerInfo(cfg, s, env, info, ourNat).node, info.vip, env)
  {
    var v, t := info.vip, OnPeerInfo(cfg, s, env, info, ourNat).node;
    var p := Learn(cfg, Entry(s, info, ourNat), info, ourNat);
    FreshEntry(cfg, s, info, ourNat);
    UpdateGrants(cfg, s, env, info, ourNat);
    UpdateStallsIff(cfg, s, env, info, ourNat);
    forall i | 0 <= i < |p.eps| ensures Budget(t, v, t.peers[v].eps[i]) == Granted(cfg, env.sendOk(i)) {
      QuietOwesNothing(s, v, p.eps[i].addr);
    }
  }

  lemma NewcomerAt(cfg: Config, run: seq<Input>, u: nat, info: PeerInfo, ourNat: Option<NatType>)
    requires RankingOk(cfg.best) && cfg.maxRetries + 1 >= PROBES_BEFORE_RELAY
    requires u < |run| && run[u].ev == GotInfo(info, ourNat) && Newcomer(At(cfg, run, u), run[u].env, info, ourNat)
    ensures OnlyGranted(At(cfg, run, u + 1), info.vip, run[u].env)
  {
    AlwaysSafe(cfg, run[..u]);
    Unroll(cfg, run, u);
    NewcomerStarts(cfg, At(cfg, run, u), run[u].env, info, ourNat);
  }

  lemma GrantedFallsBackIff(cfg: Config, run: seq<Input>, period: nat, u: nat, v: Vip, env: Env)
    requires Punctual(cfg, run, period) && u <= |run| && UndisturbedSince(cfg, run, u, v)
    requires OnlyGranted(At(cfg, run, u), v, env)
    requires Now(run) > Now(run[..u]) + Lifetime(cfg, period)
    ensures var s, t := At(cfg, run, u), At(cfg, run, |run|);
            && v in s.peers && v in t.peers
            && if forall i :: 0 <= i < |s.peers[v].eps| ==> env.sendOk(i) then GivenUp(cfg, t.peers[v].state)
               else t.peers[v].state == DirectTry
  {
    if Quiet(At(cfg, run, u), v) {
      assert !env.sendOk(0);
      ShortBudgetNeverFallsBack(cfg, run, u, v);
    } else {
      FallbackInTime(cfg, run, period, u, v);
    }
  }

  /** End to end, for a peer first heard of from signaling that is to be probed: if it never answers, it is
      given up in time exactly when every ping of that update was sent; otherwise it stays in DirectTry. */
  lemma NewcomerFallsBackIff(cfg: Config, run: seq<Input>, period: nat, u: nat, info: PeerInfo, ourNat: Option<NatType>)
    requires Punctual(cfg, run, period) && RankingOk(cfg.best) && cfg.maxRetries + 1 >= PROBES_BEFORE_RELAY
    requires u < |run| && run[u].ev == GotInfo(info, ourNat) && Newcomer(At(cfg, run, u), run[u].env, info, ourNat)
    requires UndisturbedSince(cfg, run, u + 1, info.vip)
    requires Now(run) > Now(run[..u + 1]) + Lifetime(cfg, period)
    ensures var v, s, t := info.vip, At(cfg, run, u + 1), At(cfg, run, |run|);
            && v in s.peers && v in t.peers
            && if forall i :: 0 <= i < |s.peers[v].eps| ==> run[u].env.sendOk(i) then GivenUp(cfg, t.peers[v].state)
               else t.peers[v].state == DirectTry
  {
    NewcomerAt(cfg, run, u, info, ourNat);
    GrantedFallsBackIff(cfg, run, period, u + 1, info.vip, run[u].env);
  }
}
