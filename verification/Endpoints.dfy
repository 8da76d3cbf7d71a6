/** The endpoint set of a peer. The type itself lives in the `omninervous` crate, which the
    repository does not contain; README.md lists what is assumed about it here. */
module Endpoints {
  import opened Common
  import opened Addresses

  datatype Source = Nucleus | PortMap | DirectProbe | Relay
  datatype Status = Untried | Probing | Working | Failed
  datatype Endpoint = Endpoint(addr: SocketAddr, source: Source, status: Status, probes: nat, latency: Option<nat>)

  const PROBES_BEFORE_RELAY: nat := 3

  predicate Has(eps: seq<Endpoint>, a: SocketAddr) {
    exists i :: 0 <= i < |eps| && eps[i].addr == a
  }

  function Upsert(eps: seq<Endpoint>, a: SocketAddr, source: Source): seq<Endpoint> {
    if Has(eps, a) then
      seq(|eps|, i requires 0 <= i < |eps| => if eps[i].addr == a then eps[i].(source := source) else eps[i])
    else
      eps + [Endpoint(a, source, Untried, 0, None)]
  }

  function RecordPong(eps: seq<Endpoint>, a: SocketAddr, rtt: nat, probesAfterPong: nat -> nat): seq<Endpoint> {
    seq(|eps|, i requires 0 <= i < |eps| =>
      if eps[i].addr == a then
        eps[i].(status := Working, probes := probesAfterPong(eps[i].probes), latency := Some(rtt))
      else eps[i])
  }

  function MarkFailed(eps: seq<Endpoint>, a: SocketAddr): seq<Endpoint> {
    seq(|eps|, i requires 0 <= i < |eps| => if eps[i].addr == a then eps[i].(status := Failed) else eps[i])
  }

  function MarkProbing(eps: seq<Endpoint>, a: SocketAddr): seq<Endpoint> {
    seq(|eps|, i requires 0 <= i < |eps| =>
      if eps[i].addr == a then
        eps[i].(probes := eps[i].probes + 1, status := if eps[i].status == Working then Working else Probing)
      else eps[i])
  }

  predicate HasWorking(eps: seq<Endpoint>) {
    exists i :: 0 <= i < |eps| && eps[i].status == Working
  }

  /** Threshold from the comment at crates/omni-core/src/manager.rs:2418-2421. */
  predicate NeedsRelay(eps: seq<Endpoint>) {
    |eps| > 0 && !HasWorking(eps) && forall i :: 0 <= i < |eps| ==> eps[i].probes >= PROBES_BEFORE_RELAY
  }

  function Addrs(eps: seq<Endpoint>): seq<SocketAddr> {
    seq(|eps|, i requires 0 <= i < |eps| => eps[i].addr)
  }

  function AllFailed(eps: seq<Endpoint>): seq<Endpoint> {
    seq(|eps|, i requires 0 <= i < |eps| => eps[i].(status := Failed))
  }

  /** What every ranking of endpoints has to respect: it picks members, and something when one works. */
  ghost predicate RankingOk(best: seq<Endpoint> -> Option<Endpoint>) {
    forall eps: seq<Endpoint> ::
      && (best(eps).Some? ==> best(eps).value in eps)
      && (HasWorking(eps) ==> best(eps).Some?)
  }
}
