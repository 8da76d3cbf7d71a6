/** One peer as the dispatcher tracks it, with the updates of `PeerState`
    (crates/omni-core/src/manager.rs:112-394). */
module Peers {
  import opened Common
  import opened Addresses
  import opened Endpoints

  datatype NatType = Unknown | Open | FullCone | RestrictedCone | PortRestrictedCone | Symmetric
  datatype Strategy = Direct | SimultaneousOpen | PortPrediction | RelayOnly
  datatype ConnState = Init | DirectTry | DirectOk | RelayTry | RelayOk | Failed

  // `best` ranks endpoints and `probesAfterPong` is the probe count after an answer: both belong to
  // the crate that is not part of this model, so they are arbitrary functions.
  datatype Config = Config(
    ourKey: Key,
    ourVip: Vip,
    ourVip6: Option<Vip6>,
    macos: bool,
    pingTimeout: nat,
    maxRetries: nat,
    relayEnabled: bool,
    relayServer: Option<SocketAddr>,
    best: seq<Endpoint> -> Option<Endpoint>,
    probesAfterPong: nat -> nat)

  function SelectStrategy(ours: Option<NatType>, theirs: Option<NatType>): Strategy {
    if ours == Some(Open) || theirs == Some(Open) then Direct
    else if ours == Some(FullCone) || theirs == Some(FullCone) then Direct
    else if ours == Some(Symmetric) && theirs == Some(Symmetric) then RelayOnly
    else if ours == Some(Symmetric) || theirs == Some(Symmetric) then PortPrediction
    else if ours in {Some(RestrictedCone), Some(PortRestrictedCone)}
            && theirs in {Some(RestrictedCone), Some(PortRestrictedCone)} then SimultaneousOpen
    else Direct
  }

  /** Both ends choose the same strategy, and the relay right away exactly when both are symmetric. */
  lemma StrategyIsSymmetric(ours: Option<NatType>, theirs: Option<NatType>)
    ensures SelectStrategy(ours, theirs) == SelectStrategy(theirs, ours)
    ensures SelectStrategy(ours, theirs) == RelayOnly <==> ours == Some(Symmetric) && theirs == Some(Symmetric)
  {
  }

  ghost predicate EasyNat(natType: Option<NatType>) { natType == Some(Open) || natType == Some(FullCone) }
  ghost predicate RestrictedNat(natType: Option<NatType>) {
    natType == Some(RestrictedCone) || natType == Some(PortRestrictedCone)
  }

  /** The documented matrix. With the lemma above it leaves Direct for all other pairs. */
  lemma StrategyMatrix(ours: Option<NatType>, theirs: Option<NatType>)
    ensures var hard := !EasyNat(ours) && !EasyNat(theirs);
            var r := SelectStrategy(ours, theirs);
            && (r == PortPrediction <==> hard && ((ours == Some(Symmetric)) != (theirs == Some(Symmetric))))
            && (r == SimultaneousOpen <==> RestrictedNat(ours) && RestrictedNat(theirs))
  {
  }

  datatype Peer = Peer(
    vip: Vip,
    vip6: Option<Vip6>,
    key: Key,
    eps: seq<Endpoint>,
    state: ConnState,
    lastSeen: Option<nat>,
    usingRelay: bool,
    natType: Option<NatType>,
    strategy: Strategy)
  {
    function AddEndpoint(a: SocketAddr, source: Source): Peer { this.(eps := Upsert(eps, a, source)) }

    function UpdateStrategy(ours: Option<NatType>, theirs: Option<NatType>): Peer {
      this.(natType := theirs, strategy := SelectStrategy(ours, theirs))
    }

    function RecordPong(cfg: Config, a: SocketAddr, now: nat, rtt: nat): Peer {
      var p := this.(eps := Endpoints.RecordPong(eps, a, rtt, cfg.probesAfterPong), lastSeen := Some(now));
      if !HasWorking(p.eps) then p
      else if cfg.best(p.eps).Or((e: Endpoint) => e.source == Relay, false) then
        p.(state := RelayOk, usingRelay := true)
      else p.(state := DirectOk, usingRelay := false)
    }

    function MarkEndpointFailed(a: SocketAddr): Peer {
      var p := this.(eps := MarkFailed(eps, a));
      if NeedsRelay(p.eps) then p.(state := RelayTry) else p
    }

    function MarkRelayed(now: nat): Peer { this.(state := RelayOk, usingRelay := true, lastSeen := Some(now)) }
  }

  function NewPeer(vip: Vip, vip6: Option<Vip6>, key: Key, endpoint: Option<SocketAddr>,
                   natType: Option<NatType>, strategy: Strategy): Peer {
    Peer(vip, vip6, key, if endpoint.Some? then Upsert([], endpoint.value, Nucleus) else [],
         Init, None, false, natType, strategy)
  }
}
