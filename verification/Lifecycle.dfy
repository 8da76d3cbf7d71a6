/** Connect, failed join, disconnect, and the helper service that queues them
    (crates/omni-core/src/manager.rs:908-948, 950-1410, 3182-3298; crates/omni-helper/src/lib.rs:128-244),
    on the platforms that close the TUN device on disconnect. */
module Lifecycle {
  import opened Common
  import opened Peers
  import opened DispatcherSpec
  import opened DispatcherSafety

  datatype Status = Disconnected | Authenticated | Joining | Connecting | Connected | Stopping

  // How the network join of one attempt goes.
  datatype Join = Refused | SetupFailed | TunFailed | Joined(vip: string, vip6: Option<string>)
  datatype Job = Start(network: string, join: Join) | Stop

  // `openTuns` counts the TUN devices of the operating system; `loops` says that the dispatcher runs.
  datatype Manager = Manager(
    status: Status,
    tun: bool,
    proto: bool,
    loops: bool,
    networkId: Option<string>,
    vip: Option<string>,
    vip6: Option<string>,
    tables: Node,
    openTuns: nat)

  const IDLE: Manager := Manager(Disconnected, false, false, false, None, None, None, START, 0)

  // The places where a job gives up one lock and takes another, so that others can look.
  datatype Pc =
    | Begin | StopLoops | CloseTun | DropAddresses | ClearPeers | ClearPings | ClearSessions | Stopped
    | Authenticate | Join | AfterJoin | Setup | Finish | Done

  function Left(pc: Pc): nat {
    match pc
    case Begin => 13 case StopLoops => 12 case CloseTun => 11 case DropAddresses => 10 case ClearPeers => 9
    case ClearPings => 8 case ClearSessions => 7 case Stopped => 6 case Authenticate => 5 case Join => 4
    case AfterJoin => 3 case Setup => 2 case Finish => 1 case Done => 0
  }

  /** One step of a job that holds the manager. */
  function Advance(m: Manager, job: Job, pc: Pc): (r: (Manager, Pc))
    ensures pc != Done ==> Left(r.1) < Left(pc)
  {
    match pc
    case Begin => (m, if job.Start? && !m.tun then Authenticate else StopLoops)
    // disconnect
    case StopLoops => (m.(status := Stopping, loops := false), CloseTun)
    case CloseTun =>
      (m.(tun := false, openTuns := if m.tun && m.openTuns > 0 then m.openTuns - 1 else m.openTuns,
          tables := m.tables.(tun := Tunnel.EMPTY)), DropAddresses)
    case DropAddresses => (m.(proto := false, networkId := None, vip := None, vip6 := None), ClearPeers)
    case ClearPeers => (m.(tables := m.tables.(peers := map[])), ClearPings)
    case ClearPings => (m.(tables := m.tables.(pings := map[])), ClearSessions)
    case ClearSessions => (m.(tables := m.tables.(sessions := map[])), Stopped)
    case Stopped => (m.(status := Disconnected), if job.Start? then Authenticate else Done)
    // connect_with_token, perform_join
    case Authenticate => (m.(status := Authenticated), Join)
    case Join => if job.Stop? then (m, Done) else (m.(status := Joining, networkId := Some(job.network)), AfterJoin)
    case AfterJoin =>
      if job.Start? && job.join != Refused then (m.(status := Connecting), Setup)
      else (m.(status := Authenticated), Done)
    case Setup =>
      if job.Start? && job.join.Joined? then
        (m.(tun := true, proto := true, loops := true, vip := Some(job.join.vip), vip6 := job.join.vip6,
            openTuns := m.openTuns + 1), Finish)
      else (m.(status := Authenticated), Done)
    case Finish => (m.(status := Connected), Done)
    case Done => (m, Done)
  }

  function RunFrom(m: Manager, job: Job, pc: Pc): Manager
    decreases Left(pc)
  {
    if pc == Done then m else RunFrom(Advance(m, job, pc).0, job, Advance(m, job, pc).1)
  }

  class ConnectionManager {
    var status: Status
    var tun: bool
    var proto: bool
    var loops: bool
    var networkId: Option<string>
    var vip: Option<string>
    var vip6: Option<string>
    var tables: Node
    var openTuns: nat

    function State(): Manager
      reads this
    {
      Manager(status, tun, proto, loops, networkId, vip, vip6, tables, openTuns)
    }

    constructor ()
      ensures State() == IDLE
    {
      status, tun, proto, loops := Disconnected, false, false, false;
      networkId, vip, vip6, tables, openTuns := None, None, None, START, 0;
    }

    method Disconnect()
      modifies this
      ensures State() == RunFrom(old(State()), Stop, StopLoops)
    {
      UnrollStop(State());
      status, loops := Stopping, false;
      if tun {
        openTuns := if openTuns > 0 then openTuns - 1 else 0;
      }
      tun := false;
      tables := tables.(tun := Tunnel.EMPTY);
      proto := false;
      networkId, vip, vip6 := None, None, None;
      tables := tables.(peers := map[]);
      tables := tables.(pings := map[]);
      tables := tables.(sessions := map[]);
      status := Disconnected;
      assert State() == Cleared(old(State()));
    }

    method ConnectWithToken(network: string, join: Join) returns (ok: bool)
      modifies this
      ensures State() == RunFrom(old(State()), Start(network, join), Begin)
      ensures ok == join.Joined?
    {
      if tun {
        Disconnect();
        UnrollRestart(old(State()), Start(network, join));
      }
      ok := PerformJoin(network, join);
    }

    method PerformJoin(network: string, join: Join) returns (ok: bool)
      modifies this
      ensures State() == RunFrom(old(State()), Start(network, join), Authenticate)
      ensures ok == join.Joined?
    {
      UnrollConnect(State(), network, join);
      status := Authenticated;
      status, networkId := Joining, Some(network);
      if join == Refused {
        status := Authenticated;
        return false;
      }
      status := Connecting;
      if !join.Joined? {
        status := Authenticated;
        return false;
      }
      openTuns := openTuns + 1;
      tun, proto, loops := true, true, true;
      vip, vip6 := Some(join.vip), join.vip6;
      status := Connected;
      ok := true;
      assert State() == AfterConnect(old(State()), network, join);
    }
  }

  /** What connect_with_token leaves of a manager that is down. */
  function AfterConnect(m: Manager, network: string, join: Join): Manager {
    var joining := m.(networkId := Some(network));
    if join.Joined? then
      joining.(status := Connected, tun := true, proto := true, loops := true, vip := Some(join.vip),
               vip6 := join.vip6, openTuns := m.openTuns + 1)
    else joining.(status := Authenticated)
  }

  function Cleared(m: Manager): Manager {
    Manager(Disconnected, false, false, false, None, None, None, START,
            if m.tun && m.openTuns > 0 then m.openTuns - 1 else m.openTuns)
  }

  lemma UnrollStop(m: Manager)
    ensures RunFrom(m, Stop, StopLoops) == Cleared(m)
  {
    UnrollDisconnect(m, Stop);
  }

  // Both kinds of job pass through the same disconnect.
  lemma UnrollDisconnect(m: Manager, job: Job)
    ensures RunFrom(m, job, StopLoops) == RunFrom(Cleared(m), job, if job.Start? then Authenticate else Done)
  {
    var m1 := Advance(m, job, StopLoops).0;
    var m2 := Advance(m1, job, CloseTun).0;
    var m3 := Advance(m2, job, DropAddresses).0;
    var m4 := Advance(m3, job, ClearPeers).0;
    var m5 := Advance(m4, job, ClearPings).0;
    var m6 := Advance(m5, job, ClearSessions).0;
    assert RunFrom(m1, job, CloseTun) == RunFrom(m2, job, DropAddresses) == RunFrom(m3, job, ClearPeers);
    assert RunFrom(m3, job, ClearPeers) == RunFrom(m4, job, ClearPings) == RunFrom(m5, job, ClearSessions)
        == RunFrom(m6, job, Stopped);
    assert Advance(m6, job, Stopped).0 == Cleared(m);
  }

  lemma UnrollRestart(m: Manager, job: Job)
    requires job.Start? && m.tun
    ensures RunFrom(m, job, Begin) == RunFrom(RunFrom(m, Stop, StopLoops), job, Authenticate)
  {
    UnrollDisconnect(m, job);
    UnrollStop(m);
  }

  lemma UnrollConnect(m: Manager, network: string, join: Join)
    ensures RunFrom(m, Start(network, join), Authenticate) == AfterConnect(m, network, join)
  {
    var job := Start(network, join);
    var m1 := Advance(m, job, Authenticate).0;
    var m2 := Advance(m1, job, Join).0;
    var m3 := Advance(m2, job, AfterJoin).0;
    assert RunFrom(m, job, Authenticate) == RunFrom(m1, job, Join) == RunFrom(m2, job, AfterJoin);
    if join != Refused {
      assert RunFrom(m2, job, AfterJoin) == RunFrom(m3, job, Setup);
    }
  }

  // ---- the helper service

  // `active` is the job holding the manager and where it is; requests only add to `queue`.
  datatype Helper = Helper(m: Manager, active: Option<(Job, Pc)>, queue: multiset<Job>)

  /** start_vpn looks at the status, whatever job is half-way through, before it queues anything. */
  function Enqueue(status: Status, queue: multiset<Job>, job: Job): multiset<Job> {
    if job.Start? && status in {Connected, Connecting} then queue else queue + multiset{job}
  }

  class HelperServer {
    const manager: ConnectionManager
    var queue: multiset<Job>

    constructor ()
      ensures fresh(manager) && manager.State() == IDLE && queue == multiset{}
    {
      manager := new ConnectionManager();
      queue := multiset{};
    }

    method HandleRequest(job: Job) returns (queued: bool)
      modifies `queue
      ensures queue == Enqueue(manager.status, old(queue), job)
      ensures queued <==> !(job.Start? && (manager.status == Connected || manager.status == Connecting))
      ensures queued <==> queue != old(queue)
    {
      if job.Start? {
        match manager.status {
          case Connected => return false;
          case Connecting => return false;
          case _ =>
        }
      }
      queue := queue + multiset{job};
      queued := true;
      assert queue[job] == old(queue)[job] + 1;
    }

    // A background task that got the manager, from start to end.
    method RunJob(job: Job)
      requires job in queue
      modifies `queue, manager
      ensures queue == old(queue) - multiset{job}
      ensures manager.State() == RunFrom(old(manager.State()), job, Begin)
    {
      queue := queue - multiset{job};
      match job {
        case Start(network, join) => var _ := manager.ConnectWithToken(network, join);
        case Stop => manager.Disconnect();
      }
    }
  }

  datatype Action =
    | Request(job: Job)              // start_vpn or stop_vpn arrives
    | Take(job: Job)                 // a queued job gets the manager
    | Go                             // the active job makes one step
    | Dispatch(ev: Event, env: Env)  // the dispatcher handles one input

  /** The active job makes one step. */
  function GoOn(h: Helper): Helper {
    if h.active.None? then h
    else
      var (job, pc) := h.active.value;
      var (m, next) := Advance(h.m, job, pc);
      h.(m := m, active := if next == Done then None else Some((job, next)))
  }

  function Act(cfg: Config, h: Helper, a: Action): Helper {
    match a
    case Request(job) =>
      h.(queue := Enqueue(h.m.status, h.queue, job))
    case Take(job) =>
      if h.active.Some? || job !in h.queue then h
      else h.(active := Some((job, Begin)), queue := h.queue - multiset{job})
    case Go => GoOn(h)
    case Dispatch(ev, env) =>
      if !h.m.loops || ev.Disconnect? then h else h.(m := h.m.(tables := Step(cfg, h.m.tables, ev, env).node))
  }

  function ActAll(cfg: Config, actions: seq<Action>): Helper {
    if actions == [] then Helper(IDLE, None, multiset{})
    else Act(cfg, ActAll(cfg, actions[..|actions| - 1]), actions[|actions| - 1])
  }

  ghost predicate RelayBacked(s: Node) {
    forall v :: v in s.peers && s.peers[v].state == RelayOk ==> s.peers[v].key in s.sessions
  }

  // What holds at each place of a job.
  ghost predicate PcOk(m: Manager, pc: Pc) {
    match pc
    case Begin | Done => Settled(m)
    case StopLoops => true
    case CloseTun => !m.loops && m.status == Stopping
    case DropAddresses => !m.tun && !m.loops && m.tables.tun == Tunnel.EMPTY && m.status == Stopping
    case ClearPeers => Down(m) && m.tables.tun == Tunnel.EMPTY && m.networkId == None && m.status == Stopping
    case ClearPings =>
      && Down(m) && m.tables == START.(pings := m.tables.pings, sessions := m.tables.sessions)
      && m.networkId == None && m.status == Stopping
    case ClearSessions =>
      Down(m) && m.tables == START.(sessions := m.tables.sessions) && m.networkId == None && m.status == Stopping
    case Stopped => Down(m) && m.tables == START && m.networkId == None && m.status == Stopping
    case Authenticate => Down(m) && m.tables == START && m.status in {Disconnected, Authenticated}
    case Join => Down(m) && m.tables == START && m.status == Authenticated
    case AfterJoin => Down(m) && m.tables == START && m.networkId.Some? && m.status == Joining
    case Setup => Down(m) && m.tables == START && m.networkId.Some? && m.status == Connecting
    case Finish => m.tun && m.proto && m.loops && m.vip.Some? && m.networkId.Some? && m.status == Connecting
  }

  ghost predicate Down(m: Manager) { !m.tun && !m.proto && !m.loops && m.vip == None && m.vip6 == None }

  /** Between jobs: connected with everything set, or down with every table empty. */
  ghost predicate Settled(m: Manager) {
    if m.tun then m.status == Connected && m.proto && m.loops && m.vip.Some? && m.networkId.Some?
    else Down(m) && m.status in {Disconnected, Authenticated} && m.tables == START
  }

  ghost predicate HelperOk(h: Helper) {
    && h.m.openTuns == (if h.m.tun then 1 else 0)
    && RelayBacked(h.m.tables)
    && (h.m.loops ==> h.m.tun && Safe(h.m.tables))
    && (if h.active.None? then Settled(h.m) else h.active.value.1 != Done && PcOk(h.m, h.active.value.1))
    && (h.active.Some? && h.active.value.0.Stop? ==> Left(h.active.value.1) >= Left(Stopped))
  }

  // One step of the active job keeps what holds of the manager alone.
  lemma AdvanceKeepsOk(m: Manager, job: Job, pc: Pc)
    requires pc != Done && PcOk(m, pc) && (job.Stop? ==> Left(pc) >= Left(Stopped))
    requires m.openTuns == (if m.tun then 1 else 0)
    ensures var (r, next) := Advance(m, job, pc);
            && PcOk(r, next)
            && r.openTuns == (if r.tun then 1 else 0)
            && (job.Stop? && next != Done ==> Left(next) >= Left(Stopped))
  {
  }

  lemma AdvanceKeepsTables(m: Manager, job: Job, pc: Pc)
    requires RelayBacked(m.tables) && (m.loops ==> m.tun && Safe(m.tables)) && PcOk(m, pc)
    ensures var r := Advance(m, job, pc).0;
            RelayBacked(r.tables) && (r.loops ==> r.tun && Safe(r.tables))
  {
  }

  lemma GoKeepsOk(cfg: Config, h: Helper)
    requires HelperOk(h)
    ensures HelperOk(Act(cfg, h, Go))
  {
    if h.active.Some? {
      AdvanceKeepsOk(h.m, h.active.value.0, h.active.value.1);
      AdvanceKeepsTables(h.m, h.active.value.0, h.active.value.1);
    }
  }

  lemma DispatchKeepsOk(cfg: Config, h: Helper, ev: Event, env: Env)
    requires Endpoints.RankingOk(cfg.best) && HelperOk(h)
    ensures HelperOk(Act(cfg, h, Dispatch(ev, env)))
  {
    if h.m.loops && !ev.Disconnect? {
      StepIsSafe(cfg, h.m.tables, ev, env);
      var t := Step(cfg, h.m.tables, ev, env).node;
      assert RelayBacked(t) by {
        assert forall v :: v in t.peers ==> PeerSafe(v, t.peers[v], t.sessions, t.tun.known);
      }
      DispatchIsInvisible(h.m, t, if h.active.Some? then h.active.value.1 else Done);
    }
  }

  lemma DispatchIsInvisible(m: Manager, t: Node, pc: Pc)
    requires m.loops && m.tun && PcOk(m, pc)
    ensures PcOk(m.(tables := t), pc)
  {
  }

  lemma ActKeepsOk(cfg: Config, h: Helper, a: Action)
    requires Endpoints.RankingOk(cfg.best) && HelperOk(h)
    ensures HelperOk(Act(cfg, h, a))
  {
    match a
    case Request(job) =>
    case Take(job) =>
    case Go => GoKeepsOk(cfg, h);
    case Dispatch(ev, env) => DispatchKeepsOk(cfg, h, ev, env);
  }

  /** For every interleaving of start and stop requests, job steps and dispatcher inputs: at most one TUN
      is open, and it is the manager's; between jobs the manager is connected with everything set or down
      with every table empty; and relayed peers have a session even half-way through a disconnect. */
  lemma {:induction false} HelperAlwaysOk(cfg: Config, actions: seq<Action>)
    requires Endpoints.RankingOk(cfg.best)
    ensures HelperOk(ActAll(cfg, actions))
    ensures ActAll(cfg, actions).m.openTuns <= 1
  {
    if actions != [] {
      var n := |actions| - 1;
      HelperAlwaysOk(cfg, actions[..n]);
      ActKeepsOk(cfg, ActAll(cfg, actions[..n]), actions[n]);
    }
  }

  /** A whole job from any settled state: a join that works ends Connected with its own addresses on the
      only TUN; any other attempt ends Authenticated without one; a stop leaves nothing behind. */
  lemma JobEnds(m: Manager, job: Job)
    requires Settled(m) && m.openTuns == (if m.tun then 1 else 0)
    ensures var r := RunFrom(m, job, Begin);
            && Settled(r) && r.openTuns == (if r.tun then 1 else 0)
            && match job
               case Stop => r == IDLE
               case Start(network, join) =>
                 && r.networkId == Some(network) && r.tables == START
                 && if join.Joined? then
                      r.status == Connected && r.tun && r.vip == Some(join.vip) && r.vip6 == join.vip6
                    else r.status == Authenticated && !r.tun && r.vip == None
  {
    UnrollDisconnect(m, job);
    if job.Start? {
      UnrollConnect(m, job.network, job.join);
      UnrollConnect(Cleared(m), job.network, job.join);
    }
  }

  // ---- requests, told from what they find

  /** A request is turned away exactly when it is a start that finds the manager Connected or Connecting;
      otherwise exactly this job is queued. Nothing else changes at that moment. */
  lemma RequestOutcome(cfg: Config, h: Helper, job: Job)
    ensures var r := Act(cfg, h, Request(job));
            var refused := job.Start? && (h.m.status == Connected || h.m.status == Connecting);
            && r.m == h.m && r.active == h.active
            && (r.queue == h.queue <==> refused)
            && (!refused ==> r.queue == h.queue + multiset{job})
  {
    assert (h.queue + multiset{job})[job] == h.queue[job] + 1;
  }

  lemma {:induction false} ActAllSplit(cfg: Config, first: seq<Action>, x: seq<Action>, after: seq<Action>)
    requires ActAll(cfg, first + x) == ActAll(cfg, first)
    ensures ActAll(cfg, first + x + after) == ActAll(cfg, first + after)
    decreases |after|
  {
    if after == [] {
      assert first + x + after == first + x && first + after == first;
    } else {
      var n := |after| - 1;
      ActAllSplit(cfg, first, x, after[..n]);
      assert (first + x + after)[..|first + x + after| - 1] == first + x + after[..n];
      assert (first + after)[..|first + after| - 1] == first + after[..n];
    }
  }

  /** A start that finds the manager Connected or Connecting might as well not have arrived: whatever came
      before and whatever comes after, the outcome is the same without it. */
  lemma StartWhileUpIsNoOp(cfg: Config, first: seq<Action>, network: string, join: Join, after: seq<Action>)
    requires ActAll(cfg, first).m.status in {Connected, Connecting}
    ensures ActAll(cfg, first + [Request(Start(network, join))] + after) == ActAll(cfg, first + after)
  {
    var x := [Request(Start(network, join))];
    assert (first + x)[..|first + x| - 1] == first;
    ActAllSplit(cfg, first, x, after);
  }

  /** n steps of the active job. */
  function Steps(cfg: Config, h: Helper, n: nat): Helper
    decreases n
  {
    if n == 0 then h else Steps(cfg, Act(cfg, h, Go), n - 1)
  }

  lemma {:induction false} DoneStaysDone(cfg: Config, h: Helper, n: nat)
    requires h.active.None?
    ensures Steps(cfg, h, n) == h
    decreases n
  {
    if n > 0 {
      DoneStaysDone(cfg, h, n - 1);
    }
  }

  lemma GoAdvances(cfg: Config, m: Manager, job: Job, pc: Pc, queue: multiset<Job>)
    ensures var (r, next) := Advance(m, job, pc);
            Act(cfg, Helper(m, Some((job, pc)), queue), Go)
            == Helper(r, if next == Done then None else Some((job, next)), queue)
  {
  }

  lemma RunAdvances(m: Manager, job: Job, pc: Pc)
    requires pc != Done
    ensures var (r, next) := Advance(m, job, pc);
            RunFrom(m, job, pc) == if next == Done then r else RunFrom(r, job, next)
  {
  }

  /** A job that has the manager is over after as many steps as it has left, and has then done what it does
      when it runs alone. */
  lemma {:induction false} JobRunsToItsEnd(cfg: Config, m: Manager, job: Job, pc: Pc, queue: multiset<Job>, n: nat)
    requires pc != Done && n >= Left(pc)
    ensures Steps(cfg, Helper(m, Some((job, pc)), queue), n) == Helper(RunFrom(m, job, pc), None, queue)
    decreases n
  {
    var (r, next) := Advance(m, job, pc);
    GoAdvances(cfg, m, job, pc, queue);
    RunAdvances(m, job, pc);
    if next == Done {
      DoneStaysDone(cfg, Helper(r, None, queue), n - 1);
    } else {
      JobRunsToItsEnd(cfg, r, job, next, queue, n - 1);
    }
  }

  /** The helper after this job was requested, got the manager and ran to its end. */
  function Served(cfg: Config, h: Helper, job: Job): Helper {
    Steps(cfg, Act(cfg, Act(cfg, h, Request(job)), Take(job)), Left(Begin))
  }

  lemma ServedIs(cfg: Config, h: Helper, job: Job)
    requires h.active.None? && (job.Start? ==> h.m.status != Connected && h.m.status != Connecting)
    ensures Served(cfg, h, job) == Helper(RunFrom(h.m, job, Begin), None, h.queue)
  {
    var taken := Act(cfg, Act(cfg, h, Request(job)), Take(job));
    assert taken.active == Some((job, Begin)) && taken.m == h.m;
    assert h.queue + multiset{job} - multiset{job} == h.queue;
    assert taken == Helper(h.m, Some((job, Begin)), h.queue);
    JobRunsToItsEnd(cfg, h.m, job, Begin, h.queue, Left(Begin));
  }

  /** End to end, from every reachable helper without an active job: a start that finds the manager down and
      whose join works ends Connected on the network asked for, with the addresses of the join, the loops
      running and one TUN open; one whose join or set-up fails ends Authenticated with none. */
  lemma StartConnects(cfg: Config, actions: seq<Action>, network: string, join: Join)
    requires Endpoints.RankingOk(cfg.best)
    requires ActAll(cfg, actions).active.None? && !ActAll(cfg, actions).m.tun
    ensures var m := Served(cfg, ActAll(cfg, actions), Start(network, join)).m;
            && m.networkId == Some(network) && m.tables == START
            && if join.Joined? then
                 && m.status == Connected && m.tun && m.proto && m.loops && m.openTuns == 1
                 && m.vip == Some(join.vip) && m.vip6 == join.vip6
               else m.status == Authenticated && !m.tun && !m.proto && !m.loops && m.openTuns == 0 && m.vip == None
  {
    HelperAlwaysOk(cfg, actions);
    var h := ActAll(cfg, actions);
    ServedIs(cfg, h, Start(network, join));
    JobEnds(h.m, Start(network, join));
  }

  /** And a stop, from any such helper, ends in the initial state, with everything empty and no TUN. */
  lemma StopDisconnects(cfg: Config, actions: seq<Action>)
    requires Endpoints.RankingOk(cfg.best) && ActAll(cfg, actions).active.None?
    ensures Served(cfg, ActAll(cfg, actions), Stop).m
            == Manager(Disconnected, false, false, false, None, None, None, Node(map[], map[], map[], Tunnel.EMPTY), 0)
  {
    HelperAlwaysOk(cfg, actions);
    var h := ActAll(cfg, actions);
    ServedIs(cfg, h, Stop);
    JobEnds(h.m, Stop);
  }
}
