/** Deadlines: how long a ping can stay outstanding, and when a peer falls back to the relay
    (crates/omni-core/src/manager.rs:2405-2504). */
module DispatcherTiming {
  import opened Common
  import opened Peers
  import opened DispatcherSpec
  import opened DispatcherHistory

  // ---- one tick looks at every outstanding ping once

  /** What a tick makes of a ping: left alone, sent again, or given up. */
  function Aged(cfg: Config, d: Pending, now: nat): Option<Pending> {
    if !Overdue(cfg, d, now) then Some(d)
    else if d.retries < d.maxRetries then Some(d.(retries := d.retries + 1, sentAt := now))
    else None
  }

  lemma TickOneAges(cfg: Config, s: Node, env: Env, y: TxId, tx: TxId)
    ensures var t := TickOne(cfg, s, env, y).node;
            && (tx !in s.pings ==> tx !in t.pings)
            && (tx in s.pings ==>
                  var d := if tx == y then Aged(cfg, s.pings[tx], env.now) else Some(s.pings[tx]);
                  (tx in t.pings <==> d.Some?) && (tx in t.pings ==> t.pings[tx] == d.value))
  {
  }

  lemma {:induction false} TickAges(cfg: Config, s: Node, env: Env, order: seq<TxId>, n: nat, tx: TxId)
    requires IsOrder(order, s.pings.Keys) && n <= |order| && tx in s.pings
    ensures var t := TickSome(cfg, s, env, order, n).node;
            var d := if tx in order[..n] then Aged(cfg, s.pings[tx], env.now) else Some(s.pings[tx]);
            (tx in t.pings <==> d.Some?) && (tx in t.pings ==> t.pings[tx] == d.value)
  {
    if n > 0 {
      TickAges(cfg, s, env, order, n - 1, tx);
      assert order[..n] == order[..n - 1] + [order[n - 1]];
      assert order[n - 1] !in order[..n - 1];
      TickOneAges(cfg, TickSome(cfg, s, env, order, n - 1).node, env, order[n - 1], tx);
    }
  }

  lemma OnTickAges(cfg: Config, s: Node, env: Env, order: seq<TxId>, tx: TxId)
    requires IsOrder(order, s.pings.Keys)
    ensures var t := OnTick(cfg, s, env, order).node;
            && (tx in t.pings <==> tx in s.pings && Aged(cfg, s.pings[tx], env.now).Some?)
            && (tx in t.pings ==> Aged(cfg, s.pings[tx], env.now) == Some(t.pings[tx]))
  {
    TickKeepsPings(cfg, s, env, order, |order|);
    if tx in s.pings {
      assert order[..|order|] == order;
      TickAges(cfg, s, env, order, |order|, tx);
    }
  }

  // ---- punctual runs

  ghost function Now(run: seq<Input>): nat { if run == [] then 0 else run[|run| - 1].env.now }

  /** When the retry timer last ran; it starts with the loops, at time 0 and after a disconnect. */
  ghost function LastTick(run: seq<Input>): nat {
    if run == [] then 0
    else if run[|run| - 1].ev.Tick? || run[|run| - 1].ev.Disconnect? then Now(run)
    else LastTick(run[..|run| - 1])
  }

  /** The clock is monotone, ticks are never further apart than `period`, and each sees the whole table. */
  ghost predicate Punctual(cfg: Config, run: seq<Input>, period: nat) {
    forall n :: 0 <= n < |run| ==> PunctualAt(cfg, run, period, n)
  }

  ghost predicate PunctualAt(cfg: Config, run: seq<Input>, period: nat, n: nat)
    requires n < |run|
  {
    && Now(run[..n]) <= run[n].env.now <= LastTick(run[..n]) + period
    && (run[n].ev.Tick? ==> IsOrder(run[n].ev.order, At(cfg, run, n).pings.Keys))
  }

  /** d was first sent at `since` or before, or has used up its slack only by retries; the last tick
      found it not overdue. */
  ghost predicate OnSchedule(cfg: Config, d: Pending, since: nat, now: nat, last: nat, period: nat) {
    && d.retries <= d.maxRetries == cfg.maxRetries
    && d.sentAt <= now
    && last <= d.sentAt + cfg.pingTimeout
    && d.sentAt <= since + d.retries * (cfg.pingTimeout + period)
  }

  lemma StepOnSchedule(cfg: Config, s: Node, inp: Input, tx: TxId, since: nat, now: nat, last: nat, period: nat)
    requires now <= inp.env.now <= last + period
    requires inp.ev.Tick? ==> IsOrder(inp.ev.order, s.pings.Keys)
    requires tx in s.pings ==> OnSchedule(cfg, s.pings[tx], since, now, last, period)
    requires last <= now
    ensures var t := Step(cfg, s, inp.ev, inp.env).node;
            var last' := if inp.ev.Tick? || inp.ev.Disconnect? then inp.env.now else last;
            tx in t.pings ==>
              || OnSchedule(cfg, t.pings[tx], since, inp.env.now, last', period)
              || (Started(cfg, s, inp.ev, inp.env, tx, t.pings[tx]) && last' <= inp.env.now)
  {
    PingsComeFromSends(cfg, s, inp.ev, inp.env, tx);
    if inp.ev.Tick? {
      OnTickAges(cfg, s, inp.env, inp.ev.order, tx);
      if tx in s.pings {
        AnotherPeriod(s.pings[tx].retries, cfg.pingTimeout + period);
      }
    }
  }

  lemma AnotherPeriod(r: nat, d: nat)
    ensures (r + 1) * d == r * d + d
  {
  }

  /** In a punctual run every outstanding ping is on schedule, counted from the present. */
  lemma {:induction false} AlwaysOnSchedule(cfg: Config, run: seq<Input>, period: nat, tx: TxId)
    requires Punctual(cfg, run, period)
    ensures LastTick(run) <= Now(run)
    ensures var s := At(cfg, run, |run|);
            tx in s.pings ==> OnSchedule(cfg, s.pings[tx], Now(run), Now(run), LastTick(run), period)
  {
    if run != [] {
      var n := |run| - 1;
      PrefixRun(cfg, run, n);
      PunctualPrefix(cfg, run, period, n);
      AlwaysOnSchedule(cfg, run[..n], period, tx);
      Unroll(cfg, run, n);
      assert PunctualAt(cfg, run, period, n);
      StepOnSchedule(cfg, At(cfg, run, n), run[n], tx, run[n].env.now, Now(run[..n]), LastTick(run[..n]), period);
    }
  }

  lemma PunctualPrefix(cfg: Config, run: seq<Input>, period: nat, n: nat)
    requires Punctual(cfg, run, period) && n <= |run|
    ensures Punctual(cfg, run[..n], period)
  {
    forall m | 0 <= m < n ensures PunctualAt(cfg, run[..n], period, m) {
      assert run[..n][..m] == run[..m];
      assert PunctualAt(cfg, run, period, m);
    }
  }

  ghost predicate Draws(inp: Input, tx: TxId) { exists k :: inp.env.tx(k) == tx }

  // The ping tx is on schedule after n inputs, counted from `since`.
  ghost predicate SchedAt(cfg: Config, run: seq<Input>, period: nat, n: nat, tx: TxId, since: nat)
    requires n <= |run|
  {
    tx in At(cfg, run, n).pings ==>
      OnSchedule(cfg, At(cfg, run, n).pings[tx], since, Now(run[..n]), LastTick(run[..n]), period)
  }

  lemma OnScheduleAt(cfg: Config, run: seq<Input>, period: nat, n: nat, tx: TxId)
    requires Punctual(cfg, run, period) && n <= |run|
    ensures LastTick(run[..n]) <= Now(run[..n])
    ensures SchedAt(cfg, run, period, n, tx, Now(run[..n]))
  {
    PunctualPrefix(cfg, run, period, n);
    PrefixRun(cfg, run, n);
    AlwaysOnSchedule(cfg, run[..n], period, tx);
  }

  lemma OneStepOnSchedule(cfg: Config, run: seq<Input>, period: nat, m: nat, tx: TxId, since: nat)
    requires Punctual(cfg, run, period) && m < |run| && !Draws(run[m], tx)
    requires SchedAt(cfg, run, period, m, tx, since)
    ensures SchedAt(cfg, run, period, m + 1, tx, since)
  {
    assert run[..m + 1][..m] == run[..m];
    assert PunctualAt(cfg, run, period, m);
    Unroll(cfg, run, m);
    OnScheduleAt(cfg, run, period, m, tx);
    StepOnSchedule(cfg, At(cfg, run, m), run[m], tx, since, Now(run[..m]), LastTick(run[..m]), period);
  }

  lemma {:induction false} StaysOnSchedule(cfg: Config, run: seq<Input>, period: nat, u: nat, tx: TxId, n: nat)
    requires Punctual(cfg, run, period) && u <= n <= |run|
    requires forall j :: u <= j < n ==> !Draws(run[j], tx)
    ensures SchedAt(cfg, run, period, n, tx, Now(run[..u]))
  {
    if n == u {
      OnScheduleAt(cfg, run, period, n, tx);
    } else {
      StaysOnSchedule(cfg, run, period, u, tx, n - 1);
      OneStepOnSchedule(cfg, run, period, n - 1, tx, Now(run[..u]));
    }
  }

  ghost function Lifetime(cfg: Config, period: nat): nat { (cfg.maxRetries + 1) * (cfg.pingTimeout + period) }

  /** A ping outstanding after u inputs is answered or dropped within (max_retries + 1) times
      (ping timeout + tick period), unless its id is drawn again. */
  lemma PingsExpireInTime(cfg: Config, run: seq<Input>, period: nat, u: nat, tx: TxId)
    requires Punctual(cfg, run, period) && u <= |run|
    requires forall j :: u <= j < |run| ==> !Draws(run[j], tx)
    requires Now(run) > Now(run[..u]) + Lifetime(cfg, period)
    ensures tx !in At(cfg, run, |run|).pings
  {
    if tx in At(cfg, run, |run|).pings {
      StaysOnSchedule(cfg, run, period, u, tx, |run|);
      assert run[..|run|] == run;
      LastTickNear(cfg, run, period);
      var d := At(cfg, run, |run|).pings[tx];
      AnotherPeriod(d.retries, cfg.pingTimeout + period);
      Monotone(d.retries + 1, cfg.maxRetries + 1, cfg.pingTimeout + period);
      assert false;
    }
  }

  lemma LastTickNear(cfg: Config, run: seq<Input>, period: nat)
    requires Punctual(cfg, run, period) && run != []
    ensures Now(run) <= LastTick(run) + period
  {
    assert PunctualAt(cfg, run, period, |run| - 1);
  }

  lemma Monotone(a: nat, b: nat, d: nat)
    requires a <= b
    ensures a * d <= b * d
  {
  }
}
