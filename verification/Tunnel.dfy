/** The WireGuard peer table and its recovery from an expired tunnel
    (crates/omni-tun/src/lib.rs:36-66, 797-862). */
module Tunnel {
  import opened Common
  import opened Addresses

  datatype AllowedIp = Host4(vip: Vip) | Host6(vip6: Vip6)
  datatype PeerConfig = PeerConfig(endpoint: Option<SocketAddr>, ips: seq<AllowedIp>)

  // A tunnel of the interface. `epoch` is the number of table resets before it was created,
  // so a tunnel is newer than the last reset when its epoch is the current one.
  datatype Tunn = Tunn(config: PeerConfig, epoch: nat, handshake: Option<nat>)

  datatype TunState = TunState(interface: map<Key, Tunn>, known: map<Key, PeerConfig>, epoch: nat)

  const EMPTY: TunState := TunState(map[], map[], 0)
  const TUNNEL_EXPIRY_SECS: nat := 300

  /** Times are milliseconds; a clock that went backwards counts as not expired. */
  predicate Expired(t: map<Key, Tunn>, key: Key, now: nat) {
    && key in t
    && t[key].handshake.Some?
    && t[key].handshake.value <= now
    && (now - t[key].handshake.value) / 1000 > TUNNEL_EXPIRY_SECS
  }

  /** `set_peer` of the interface: an existing tunnel keeps its session, a missing one is created. */
  function SetPeer(t: map<Key, Tunn>, key: Key, config: PeerConfig, epoch: nat): map<Key, Tunn> {
    t[key := if key in t then t[key].(config := config) else Tunn(config, epoch, None)]
  }

  /** A wiped table after `set_peer` was called, and accepted where `ok` says so, for the peers in `keys`. */
  function Readd(known: map<Key, PeerConfig>, keys: set<Key>, epoch: nat, ok: Key -> bool): map<Key, Tunn> {
    map k | k in known && k in keys && ok(k) :: Tunn(known[k], epoch, None)
  }

  /** `ok(k)` says whether the interface accepts `set_peer` for k during this call. */
  function AddPeer(t: TunState, key: Key, config: PeerConfig, now: nat, ok: Key -> bool): TunState {
    var expired := Expired(t.interface, key, now);
    var epoch := if expired then t.epoch + 1 else t.epoch;
    var table := if expired then Readd(t.known, t.known.Keys - {key}, epoch, ok) else t.interface;
    TunState(if ok(key) then SetPeer(table, key, config, epoch) else table, t.known[key := config], epoch)
  }

  function Handshake(t: TunState, key: Key, at: nat): TunState {
    if key in t.interface then t.(interface := t.interface[key := t.interface[key].(handshake := Some(at))]) else t
  }

  /** The configuration the interface holds for each peer. */
  function Configs(t: map<Key, Tunn>): map<Key, PeerConfig> { map k | k in t :: t[k].config }

  ghost predicate InStep(t: TunState) { Configs(t.interface) == t.known }

  lemma ReaddOne(known: map<Key, PeerConfig>, keys: set<Key>, k: Key, epoch: nat, ok: Key -> bool)
    requires k in known && k !in keys
    ensures Readd(known, keys + {k}, epoch, ok) ==
            if ok(k) then SetPeer(Readd(known, keys, epoch, ok), k, known[k], epoch) else Readd(known, keys, epoch, ok)
  {
  }

  class OmniTun {
    var interface: map<Key, Tunn>
    var known: map<Key, PeerConfig>
    var epoch: nat

    function State(): TunState
      reads this
    {
      TunState(interface, known, epoch)
    }

    constructor ()
      ensures State() == EMPTY
    {
      interface, known, epoch := map[], map[], 0;
    }

    method Add(key: Key, config: PeerConfig, now: nat, ok: Key -> bool) returns (accepted: bool)
      modifies this
      ensures State() == AddPeer(old(State()), key, config, now, ok)
      ensures accepted == ok(key)
    {
      if Expired(interface, key, now) {
        epoch := epoch + 1;
        interface := map[];
        var others := known.Keys - {key};
        var rest := others;
        while rest != {}
          invariant rest <= others
          invariant known == old(known) && epoch == old(epoch) + 1
          invariant interface == Readd(known, others - rest, epoch, ok)
          decreases rest
        {
          var k :| k in rest;
          ReaddOne(known, others - rest, k, epoch, ok);
          if ok(k) {
            interface := SetPeer(interface, k, known[k], epoch);
          }
          rest := rest - {k};
          assert others - rest == others - (rest + {k}) + {k};
        }
        assert others - rest == others;
      }
      known := known[key := config];
      accepted := ok(key);
      if accepted {
        interface := SetPeer(interface, key, config, epoch);
      }
    }

    method OnHandshake(key: Key, at: nat)
      modifies this
      ensures State() == Handshake(old(State()), key, at)
    {
      if key in interface {
        interface := interface[key := interface[key].(handshake := Some(at))];
      }
    }

    method Reset()
      modifies this
      ensures State() == EMPTY
    {
      interface, known, epoch := map[], map[], 0;
    }
  }

  /** Reset recovery is invisible in the configuration: expired tunnel or not, the table stays in step
      with the map update, exactly when each `set_peer` the call makes is accepted or changes nothing. */
  lemma AddPeerRefinesUpdate(t: TunState, key: Key, config: PeerConfig, now: nat, ok: Key -> bool)
    requires InStep(t)
    ensures AddPeer(t, key, config, now, ok).known == t.known[key := config]
    ensures InStep(AddPeer(t, key, config, now, ok)) <==>
            if Expired(t.interface, key, now) then ok(key) && forall k :: k in t.known ==> ok(k)
            else ok(key) || (key in t.known && t.known[key] == config)
  {
    var r := AddPeer(t, key, config, now, ok);
    assert t.interface.Keys == t.known.Keys by {
      assert Configs(t.interface).Keys == t.interface.Keys;
    }
    if Expired(t.interface, key, now) {
      if InStep(r) {
        forall k | k in t.known ensures ok(k) {
          assert k in r.known;
          assert k in Configs(r.interface);
        }
        assert key in t.known;
      }
      if ok(key) && forall k :: k in t.known ==> ok(k) {
        assert Configs(r.interface) == r.known;
      }
    } else {
      if ok(key) || (key in t.known && t.known[key] == config) {
        assert Configs(r.interface) == r.known by {
          forall k | k in r.known ensures k in r.interface && r.interface[k].config == r.known[k] {
            assert k != key ==> k in Configs(t.interface);
          }
        }
      } else {
        assert key in r.known;
        assert key in Configs(r.interface) ==> r.interface == t.interface && Configs(t.interface)[key] == t.known[key];
      }
    }
  }

  /** On expiry every accepted peer ends on a tunnel made after the reset; otherwise no other tunnel is
      touched and an existing one keeps its session. */
  lemma AddPeerFreshness(t: TunState, key: Key, config: PeerConfig, now: nat, ok: Key -> bool)
    ensures var r := AddPeer(t, key, config, now, ok);
            if Expired(t.interface, key, now) then
              && r.interface.Keys == set k | k in t.known.Keys + {key} && ok(k)
              && forall k :: k in r.interface ==>
                   r.interface[k].epoch == r.epoch > t.epoch && r.interface[k].handshake.None?
            else
              && r.epoch == t.epoch
              && forall k :: k in t.interface ==>
                   && k in r.interface
                   && r.interface[k].epoch == t.interface[k].epoch
                   && r.interface[k].handshake == t.interface[k].handshake
                   && (k != key ==> r.interface[k] == t.interface[k])
  {
  }

  /** Which keys the interface knows after a call. */
  lemma InInterfaceIff(t: TunState, key: Key, config: PeerConfig, now: nat, ok: Key -> bool, k: Key)
    ensures k in AddPeer(t, key, config, now, ok).interface <==>
            if Expired(t.interface, key, now) then ok(k) && (k == key || k in t.known)
            else k in t.interface || (k == key && ok(k))
  {
  }

  /** The interface and the known peers agree on one key. */
  ghost predicate InStepAt(t: TunState, k: Key) {
    && (k in t.interface <==> k in t.known)
    && (k in t.known ==> t.interface[k].config == t.known[k])
  }

  lemma InStepIff(t: TunState)
    ensures InStep(t) <==> forall k :: InStepAt(t, k)
  {
    var configs := Configs(t.interface);
    if InStep(t) {
      forall k ensures InStepAt(t, k) {
        assert k in configs <==> k in t.interface;
      }
    }
    if forall k :: InStepAt(t, k) {
      assert forall k :: k in configs ==> InStepAt(t, k);
      assert forall k :: k in t.known ==> InStepAt(t, k);
      assert configs == t.known;
    }
  }

  /** What the interface does with other keys does not matter to a key it accepts. */
  lemma AddPeerKeepsStepAt(t: TunState, key: Key, config: PeerConfig, now: nat, ok: Key -> bool, k: Key)
    requires InStepAt(t, k) && ok(k)
    ensures InStepAt(AddPeer(t, key, config, now, ok), k)
  {
  }

  /** A handshake changes no configuration, and the next call for its peer wipes the table exactly when
      it comes 301 seconds after it or later: 300 full seconds are not enough. */
  lemma HandshakeDecidesResetIff(t: TunState, key: Key, at: nat, config: PeerConfig, now: nat, ok: Key -> bool)
    requires key in t.interface
    ensures var h := Handshake(t, key, at);
            && Configs(h.interface) == Configs(t.interface) && h.known == t.known
            && (AddPeer(h, key, config, now, ok).epoch != t.epoch <==> now >= at + 1000 * (TUNNEL_EXPIRY_SECS + 1))
  {
  }

  datatype Call = Call(key: Key, config: PeerConfig, now: nat, ok: Key -> bool)

  function AddAll(t: TunState, calls: seq<Call>): TunState {
    if calls == [] then t
    else
      var c := calls[|calls| - 1];
      AddPeer(AddAll(t, calls[..|calls| - 1]), c.key, c.config, c.now, c.ok)
  }

  ghost predicate NoHandshakes(t: TunState) { forall k :: k in t.interface ==> t.interface[k].handshake.None? }

  /** Recovery is not repeated: until a handshake is recorded, no number of calls wipes the table again. */
  lemma {:induction false} RecoveryHappensOnce(t: TunState, c: Call, calls: seq<Call>)
    requires Expired(t.interface, c.key, c.now)
    ensures var r := AddAll(AddPeer(t, c.key, c.config, c.now, c.ok), calls);
            NoHandshakes(r) && r.epoch == t.epoch + 1
  {
    if calls != [] {
      RecoveryHappensOnce(t, c, calls[..|calls| - 1]);
    }
  }
}
