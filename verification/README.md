# OmniEdge connection manager: a verified model

This project models the parts of OmniEdge that keep state over time and proves what they guarantee:

- the **dispatcher**, which connects peers through NATs: disco pings and pongs, the relay handshake, signaling
  updates, and the retry tick, over the peer table, the table of outstanding pings, the relay sessions and
  the WireGuard peer table;
- **N honest nodes** running that dispatcher over a network that loses, duplicates, delays, reorders and
  misdelivers packets;
- the **WireGuard table** with its recovery from an expired tunnel;
- **prefix arithmetic** for the VIP routes;
- the **plugin registry and manager** with the capability index and the state file;
- the **lifecycle** of a connection under concurrent helper requests;
- **version comparison** and the **API base URL**.

## How it is modelled

A branch of the dispatcher's `select!` loop is one atomic step. `DispatcherSpec` gives each branch as a
function from a node and an input to the node afterwards and the packets sent; the class
`Dispatcher.Dispatcher` performs the same branch step by step on its fields, and each of its methods is
proved equal to its function. `StepOutcomes` then says what those functions do, input by input, from the
state before and without naming them: entries, pings, WireGuard and packets. A run is a sequence of inputs
(`Exec`), each with an environment `Env`: the clock, the random transaction ids, which sends succeed, and
which keys WireGuard accepts. Nothing is assumed about an environment unless a lemma says so. Where the code
iterates a hash map, the iteration order is a parameter (`order`), so the results hold for every order. One
`PeerUpdate` message is one step for each peer it lists and one for its removals, which allows more
interleavings than the code has.

The tunnel, the plugin classes and the lifecycle follow the same plan: a class that changes its fields, a
function on values that its methods are proved equal to, and lemmas about that function over whole runs.
The table below names the methods whose loops or order of work make that equality more than a copy; the
others (the setters of the registry, the remaining calls of the plugin manager, constructors) carry the same
kind of contract.

`Mesh` puts any number of such nodes around a set of messages that only grows: a message in it may reach any
node never, once or often. `Lifecycle` interleaves helper requests, the steps of the job that holds the
manager, and dispatcher inputs.

### Assumptions

`EndpointSet`, `NatType` and the WireGuard interface come from the `omninervous` crate, whose source is not
part of this model. Its uses are modelled as follows.

- An endpoint set is a sequence of address, source, status, probe count and latency. `upsert` replaces the
  source of a known address and otherwise appends an untried one; `record_pong` makes the address working
  with the measured latency, and the probe count after it is arbitrary (`probesAfterPong`); `mark_failed`
  and `mark_probing` change one address. `mark_probing` counts a probe and leaves a working endpoint working.
- `needs_relay` holds when the set is not empty, nothing works, and every endpoint has had three probes.
- `best` is an arbitrary ranking, the same throughout a run, of these fields: one that also looks at the age of an
  answer is not covered. Where a lemma needs it (`RankingOk`), it picks members of the set, and picks
  something when an endpoint works.
- `set_peer` updates the configuration of an existing tunnel and creates a missing one, and a refused call
  changes nothing. `soft_shutdown` empties the table. A failed TUN setup leaves no device open.
- Results about budgets assume that new transaction ids are not outstanding (`Fresh`, `Undisturbed`).
- Timing results assume ticks at most `period` apart and a monotone clock (`Punctual`).
- The mesh assumes that its members follow the code, that signaling reports true keys, and that transaction
  ids of different nodes never collide.

### Where the code and its comments differ

The model follows the code.

- `to_mapped_v6` is called the inverse of `normalize_addr`
  (`crates/omni-core/src/manager.rs:90`). It is undone by it, but undoes it only on IPv6 addresses that lose
  no flow label or scope id: `ToMappedUndoesNormalizeIff`.
- After a failed connect the helper says the state is Failed (`crates/omni-helper/src/lib.rs:188`); it is
  Authenticated: `JobEnds`.
- "All endpoints failed" (`crates/omni-core/src/manager.rs:2459`) is decided by probe counts of all known endpoints, also of
  those nobody pinged: `LastPingDecides`. So a ping from a new address blocks the fallback of its sender:
  `HeardFromStallsIff`. Both rest on what is assumed of `needs_relay` above.
- A rejected pong has already been taken off the table of outstanding pings, so a foreign answer to the
  last ping of a peer leaves it in DirectTry, without pings, until signaling updates or removes it:
  `AnswerStallsIff`, `StallIsPermanent`.
- A removed peer stays in WireGuard. Rediscovered with another key, its address sits under two keys:
  `RediscoverySplitsIff`, `UpdateSplitsIff`. An address discovered with the key of another peer takes over
  what WireGuard has for that key: `PingTakesOverIff`. A refused `set_peer` is recorded as a known peer and
  does not stop a peer from becoming DirectOk: `AnswerReachesInterfaceIff`.
- A DirectOk peer may have nothing left that works: `GivingUpStrandsIff`, `TickStrandsIff`.
- A ping whose send fails is neither counted nor tried again (`crates/omni-core/src/manager.rs:2332-2349`). If
  one send of the first update about a peer fails, the peer does not fall back: `NewcomerFallsBackIff`. If
  all sends of an update fail, or nothing is known to probe under PortPrediction or SimultaneousOpen, its
  peer can be in DirectTry without pings at once: `UpdateStallsIff`.
- The ping back to a discovered peer does not count as a probe, so such a peer has a smaller budget than one
  learned from signaling: `DiscoveryGrants`.
- An old ping that is given up can take a peer out of RelayOk again: `RelayEndsIff`.
- A signaling update takes a relayed peer out of RelayOk and leaves `using_relay` set:
  `UpdateDemotesRelayedIff`.
- Re-registering a plugin makes a query list it twice: `QueryListsDuplicates`.
- Any IPv4 mask is accepted, and only contiguous ones give the network of their own prefix: `RouteIsNetworkIff`.
- The capability index keeps a plugin under capabilities it no longer declares: `QueryIsScanIff`,
  `ChangedCapabilitiesGoStale`. Re-discovery sets a running plugin back to Discovered
  (`DiscoveryForgetsLoadedIff`), and forgets a change whose save failed (`FailedSaveIsForgotten`).
- A version component of 2^32 or more reads as 0 (`RoundTripIff`), and pre-releases of one version are
  not ordered (`NewerOnRendered`).

## Model

| member | source | states |
|---|---|---|
| Addresses.NormalizeUndoesSend | crates/omni-core/src/manager.rs:69-108 | Receiving undoes what sending did to an address on either platform; macOS only ever sends to IPv6 addresses, other platforms to what was asked for; normalising is idempotent and its fixed points are exactly the addresses that are not IPv4-mapped |
| Addresses.ToMappedUndoesNormalizeIff | crates/omni-core/src/manager.rs:84-101 | The documented inverse holds exactly for IPv6 addresses whose mapped form carries no flow label or scope id |
| Peers.StrategyMatrix | crates/omni-core/src/manager.rs:145-192 | The documented matrix: PortPrediction exactly for one symmetric end and no easy one, SimultaneousOpen exactly for two restricted ends (and RelayOnly exactly for two symmetric ones, by `BothEndsWaitAlike`) |
| Tunnel.OmniTun.Add | crates/omni-tun/src/lib.rs:797-862 | The loop that re-adds every other known peer, in any order, then the peer itself, gives the table of `AddPeer`; the result says whether the interface took the peer |
| Tunnel.HandshakeDecidesResetIff | crates/omni-tun/src/lib.rs:807-821 | A recorded handshake changes no configuration, and the next call for that peer wipes the table if and only if it comes 301 seconds later or more: 300 full seconds are not enough |
| Tunnel.RecoveryHappensOnce | crates/omni-tun/src/lib.rs:807-845 | After a wipe no number of further calls wipes again until a handshake is recorded |
| Tunnel.AddPeerRefinesUpdate | crates/omni-tun/src/lib.rs:797-862 | Recovery is invisible in the configuration: starting in step, the interface equals the updated map of known peers afterwards if and only if each `set_peer` made was accepted or would have changed nothing |
| Tunnel.AddPeerFreshness | crates/omni-tun/src/lib.rs:819-845 | On expiry exactly the accepted known peers have tunnels, all made after the wipe and without a handshake; otherwise no other tunnel is touched and no session is lost |
| Tunnel.AddPeerKeepsStepAt | crates/omni-tun/src/lib.rs:797-862 | Interface and known peers stay in agreement on every key the interface accepts, whatever it refuses for others |
| Dispatcher.Dispatcher.HandlePing | crates/omni-core/src/manager.rs:1658-1801 | Every ping is answered; a known address with its key learns the endpoint, with a foreign key nothing changes; an unknown one becomes a peer in DirectTry with a ping back |
| Dispatcher.Dispatcher.HandlePong | crates/omni-core/src/manager.rs:1804-1872 | The ping is consumed before the key is checked; only a matching key changes the peer, and then its best endpoint goes to WireGuard |
| Dispatcher.Dispatcher.FindRelayTry | crates/omni-core/src/manager.rs:1897-1908 | Finds the first waiting peer in iteration order, and nothing exactly when no peer waits |
| Dispatcher.Dispatcher.FindKey | crates/omni-core/src/manager.rs:1912-1914 | Finds the first peer with the key in iteration order, and nothing exactly when no peer has it |
| Dispatcher.Dispatcher.HandleRelayAck | crates/omni-core/src/manager.rs:1876-1997 | Success with a session moves the named (or first waiting) peer to RelayOk, records the session under its key and points WireGuard at the relay; failure moves it to Failed; anything else changes nothing |
| Dispatcher.Dispatcher.ResetConnection | crates/omni-core/src/manager.rs:2079-2088 | Failing the addresses one by one ends with all failed and a cleared state, although each call may pass through RelayTry |
| Dispatcher.Dispatcher.Merge | crates/omni-core/src/manager.rs:2061-2123 | An update is merged as in `Learn`: change detection against the best endpoint, both endpoints added, strategy recomputed only on a new NAT type |
| Dispatcher.Dispatcher.SendPings | crates/omni-core/src/manager.rs:2159-2210 | One ping per known address; those that were sent, and only those, are marked and become outstanding |
| Dispatcher.Dispatcher.Connect | crates/omni-core/src/manager.rs:2274-2353 | WireGuard is configured with the first address, then all are pinged and the peer is in DirectTry; sessions and other peers stay |
| Dispatcher.Dispatcher.PursuePeer | crates/omni-core/src/manager.rs:2125-2355 | A working peer is refreshed, a relay-only one waits, one without addresses is configured without an endpoint, any other is probed |
| Dispatcher.Dispatcher.HandlePeerInfo | crates/omni-core/src/manager.rs:2029-2356 | One peer of an update, known or new, is merged and then pursued |
| Dispatcher.Dispatcher.HandleRemoved | crates/omni-core/src/manager.rs:2357-2367 | Exactly the listed entries leave the peer table and nothing else changes |
| Dispatcher.Dispatcher.CheckPing | crates/omni-core/src/manager.rs:2411-2499 | One outstanding ping is left alone, sent again, or given up with its endpoint failed, and the relay or last-resort branch is taken |
| Dispatcher.Dispatcher.HandleTick | crates/omni-core/src/manager.rs:2405-2555 | Removing exhausted pings only after the pass over the table makes no difference: the tick equals handling the pings one by one, followed by the relay requests |
| Dispatcher.TickOneFrame | crates/omni-core/src/manager.rs:2411-2504 | Looking at one ping does not depend on which others are already gone |
| StepOutcomes.PingIsAnswered | crates/omni-core/src/manager.rs:1667-1682 | The packets sent for a ping: a pong with its id and our key to where it came from if and only if that send works, a ping in our name with a fresh id if and only if the sender is unknown and that send works, nothing else |
| StepOutcomes.PingOfStranger | crates/omni-core/src/manager.rs:1724-1793 | A ping of an unknown address makes the whole entry it describes, configures WireGuard with its source and its /32 and /128, and starts a ping back if sent |
| StepOutcomes.PingOfPeer | crates/omni-core/src/manager.rs:1684-1722 | A ping with the stored key adds the source and configures WireGuard with the best endpoint; one with another key changes nothing |
| StepOutcomes.AnswerOutcome | crates/omni-core/src/manager.rs:1806-1862 | An answer consumes its ping, makes its source a working endpoint with the measured latency, the peer DirectOk and not relayed, and WireGuard's endpoint the best one; nothing else changes |
| StepOutcomes.UpdateOutcome | crates/omni-core/src/manager.rs:2060-2355 | For a known peer: the reported NAT type, IPv6 address and addresses (with their sources) are taken over and the key kept; the strategy is chosen anew if and only if the NAT type changed; state, flag and last contact follow from whether the old connection stays up, the strategy, and whether an address is known |
| StepOutcomes.KnownPeerWaitsIff | crates/omni-core/src/manager.rs:2116-2148 | A known peer with nothing that stays up waits for the relay if and only if both NATs are newly symmetric, or the NAT type is unchanged and it was RelayOnly (or waited, with nothing to probe) |
| StepOutcomes.UpdateOfStranger | crates/omni-core/src/manager.rs:2043-2058 | An update of an unknown peer makes the entry it reports, in the state its strategy demands |
| StepOutcomes.UpdateReachesWireGuard | crates/omni-core/src/manager.rs:2125-2319 | What WireGuard is told: the best endpoint of a connection that stays up, the first known address of a peer that is probed, no address under Direct without any, otherwise nothing; always exactly /32 and /128 |
| StepOutcomes.UpdateSendsIff | crates/omni-core/src/manager.rs:2180-2210 | The packets of an update are our pings to the known addresses of a probed peer, each if and only if its send works, and each is outstanding afterwards with the address it went to; no other ping changes |
| StepOutcomes.TickSendsIff | crates/omni-core/src/manager.rs:2411-2444 | A tick sends our ping again if and only if it is overdue, has a retry left and the send works: to its own target, with its own id |
| StepOutcomes.TickKeeps | crates/omni-core/src/manager.rs:2405-2504 | Apart from endpoints, states and pings a tick changes nothing, and WireGuard only without a relay |
| StepOutcomes.LastResortConfigures | crates/omni-core/src/manager.rs:2459-2488 | Without a relay the give-up that ends in Failed configures WireGuard with the best endpoint there is, or none; any other look at a ping leaves WireGuard alone |
| StepOutcomes.DeparturesOutcome | crates/omni-core/src/manager.rs:2357-2367 | A removal takes exactly the listed entries away and leaves everything else, a disconnect leaves every table empty; neither sends anything |
| StepOutcomes.HandshakeOutcome | crates/omni-core/src/manager.rs:2384-2394 | A WireGuard handshake is noted at its tunnel, if there is one, and changes nothing else |
| StepOutcomes.RemembersLastCall | crates/omni-tun/src/lib.rs:848-855 | In every reachable state what is remembered for a key, endpoint and addresses, is what its last call said |
| DispatcherSafety.StepIsSafe | crates/omni-core/src/manager.rs:1637-2560 | Every input keeps the invariant below |
| DispatcherSafety.AlwaysSafe | crates/omni-core/src/manager.rs:1637-2560 | In every reachable state: table key equals stored address; no endpoint has source Relay; RelayOk implies `using_relay` and a session under the peer's own key; DirectOk implies not `using_relay` and the key among `known_peers` (for the interface see `WireGuard.DirectOkIsRouted`); a working endpoint implies DirectOk |
| DispatcherHistory.OnlyAnAnswerConnects | crates/omni-core/src/manager.rs:1804-1872 | In any step a peer becomes DirectOk only by a pong that matches an outstanding ping for it and carries its stored key; the key of an entry never changes |
| DispatcherHistory.PingsComeFromSends | crates/omni-core/src/manager.rs:2180-2210 | An outstanding ping was there before the step (untouched unless by a tick) or was started and really sent in it, with a fresh schedule |
| DispatcherHistory.OutstandingWasSent | crates/omni-core/src/manager.rs:1784-1793 | Whatever is outstanding after a run was sent by an earlier input of the run |
| DispatcherHistory.KeyNeverChanges | crates/omni-core/src/manager.rs:2044-2058 | Over any stretch of a run in which an address stays in the table its public key stays the same |
| DispatcherHistory.DirectOkIsEarned | crates/omni-core/src/manager.rs:1658-1872 | For every DirectOk peer at the end of a run there is a ping sent earlier, a later answer with its transaction id and the peer's key, and the peer has been DirectOk since |
| WireGuard.OneKeyPerVip | crates/omni-core/src/manager.rs:1684-1768 | If only the peer at an address has its VIP/32 at some time (as at the start and after a disconnect), then until its next departure that peer stays the only one, in `known_peers` and in the interface, whoever else comes and goes and whatever the interface refuses |
| WireGuard.DepartureLeaves | crates/omni-core/src/manager.rs:2357-2367 | While a removed address stays absent no key gains its /32: whoever has it had it before the departure |
| WireGuard.RediscoverySplitsIff | crates/omni-core/src/manager.rs:1724-1768 | When a ping brings back any absent address, `known_peers` has its /32 under two keys if and only if some key other than the one in the ping still had it |
| WireGuard.UpdateSplitsIff | crates/omni-core/src/manager.rs:2043-2058 | The same for an update that configures the peer, which it does not under RelayOnly, nor without addresses under PortPrediction and SimultaneousOpen; one that does not leaves the address split if and only if it was |
| WireGuard.ServedIff | crates/omni-tun/src/lib.rs:848-855 | In every reachable state `known_peers` has v/32 under a key if and only if that key was last configured for v |
| WireGuard.DirectOkIsServed | crates/omni-core/src/manager.rs:1840-1861 | While no entry shares its key, a DirectOk peer has its /32 in `known_peers` under its own key |
| WireGuard.PingTakesOverIff | crates/omni-core/src/manager.rs:1724-1768 | A ping from an unknown address takes the /32 from a served DirectOk peer, which stays DirectOk, if and only if it carries that peer's key |
| WireGuard.InterfaceIff | crates/omni-tun/src/lib.rs:819-861 | In every reachable state, whatever was refused, the interface has a key if and only if the last call that concerned the key let it in: an accepted call for it, or a wipe that re-added it and was accepted |
| WireGuard.InterfaceFollows | crates/omni-tun/src/lib.rs:857-861 | After any run the interface agrees with `known_peers` on every key it never refused, through any number of wipes |
| WireGuard.AlwaysInStep | crates/omni-tun/src/lib.rs:797-862 | If it refuses nothing the two tables have the same configuration in every reachable state |
| WireGuard.AnswerReachesInterfaceIff | crates/omni-core/src/manager.rs:1856-1861 | An answer makes its peer DirectOk in any case; its key is in the interface afterwards if and only if it is accepted now, or was there with a tunnel that has not expired |
| WireGuard.DirectOkIsRouted | crates/omni-core/src/manager.rs:1840-1861 | In every reachable state a DirectOk peer whose key was never refused is in the interface, and its /32 is routed to it if no entry ever shared the key |
| DispatcherTables.RejectedPongOnlyDropsItsPing | crates/omni-core/src/manager.rs:1804-1872 | A pong that is not acted on changes nothing but its own pending entry |
| DispatcherTables.RedeliveryIsNoOp | crates/omni-core/src/manager.rs:1807-1812 | A pong delivered again, at any later time and from any address, changes nothing while its transaction id is not drawn again |
| DispatcherTables.DebugReportAddsUp | crates/omni-core/src/manager.rs:616-664 | In every reachable state connected + relayed and connected + probing + failed are at most the total; relayed equals the number in RelayOk exactly when no other peer kept the flag |
| DispatcherTables.ReportTells | crates/omni-core/src/manager.rs:646-663 | Each count of the report is 0 if and only if there is nothing of the kind, and connected equals total if and only if every peer is DirectOk |
| DispatcherTables.UpdateDemotesRelayedIff | crates/omni-core/src/manager.rs:2125-2355 | In every reachable state a relayed peer has nothing working, so it stays in RelayOk after an update if and only if its strategy is Direct and it has no endpoint; the flag stays either way |
| DispatcherTables.GivingUpStrandsIff | crates/omni-core/src/manager.rs:2445-2494 | Looking at one ping leaves a DirectOk peer DirectOk with nothing working if and only if the ping is given up, was aimed at the only working address, and some endpoint has had fewer than three probes |
| DispatcherTables.DirectOkWorks | crates/omni-core/src/manager.rs:308-337 | After any run in which no tick gives up a ping to a working address of a peer, DirectOk implies a working endpoint |
| DispatcherTables.ResetStartsOver | crates/omni-core/src/manager.rs:2061-2355 | When an endpoint change resets a peer, the same step ends in RelayTry, or in DirectTry with an outstanding ping for every known endpoint if the sends succeed |
| DispatcherTables.AlwaysPlain | crates/omni-core/src/manager.rs:1642-1647 | While signaling uses plain addresses no endpoint is ever stored in IPv4-mapped form |
| DispatcherTables.SameAddressResetsIff | crates/omni-core/src/manager.rs:1642-1647 | After any such run, an update naming the address of the best endpoint resets the peer if and only if it spells it in IPv4-mapped form |
| DispatcherTiming.OnTickAges | crates/omni-core/src/manager.rs:2405-2504 | A tick looks at every outstanding ping exactly once, in whatever order: a ping is left after it if and only if it was there and was not given up, and it is then as it was or sent again once |
| DispatcherTiming.AlwaysOnSchedule | crates/omni-core/src/manager.rs:2411-2416 | In every punctual run retries never exceed the maximum and the last tick found no surviving ping overdue |
| DispatcherTiming.PingsExpireInTime | crates/omni-core/src/manager.rs:2405-2504 | A ping outstanding at some point is answered or dropped within (max_retries + 1) * (ping timeout + tick period), while its id is not drawn again |
| RelayFallback.QuietAfterTickIff | crates/omni-core/src/manager.rs:2405-2504 | A tick leaves a peer without pings if and only if all of them were overdue and out of retries before it |
| RelayFallback.LastPingDecides | crates/omni-core/src/manager.rs:2445-2496 | The tick that finds all pings of a peer run out, and nothing working, moves it to RelayTry (Failed without a relay) if and only if every endpoint had three probes before the tick; else the state stays |
| RelayFallback.HeardFromStallsIff | crates/omni-core/src/manager.rs:1698-1700 | A peer that has been probed enough and pings before its last pings run out is left in DirectTry without pings, instead of falling back, if and only if it pings from a new address |
| RelayFallback.StallIsPermanent | crates/omni-core/src/manager.rs:2405-2504 | A peer in DirectTry without outstanding pings stays there over any run, whatever it sends and however many ticks pass, until signaling updates or removes it or the node disconnects |
| RelayFallback.AnswerStallsIff | crates/omni-core/src/manager.rs:1806-1838 | An answer brings a probed peer into that state if and only if it hits the only outstanding ping of the peer with a foreign key |
| TickOutcome.TickMoves | crates/omni-core/src/manager.rs:2405-2504 | A whole tick, in any order of the table, moves a peer to RelayTry (Failed without a relay) if and only if it gives up some ping at which nothing works any more and every endpoint has three probes, counting the retries before it; probes and working addresses afterwards are exact |
| TickOutcome.TickStrandsIff | crates/omni-core/src/manager.rs:2405-2504 | A whole tick leaves a DirectOk peer DirectOk with nothing working if and only if it gives up a ping to every working address and none of the give-ups moves the peer |
| TickOutcome.RelayEndsIff | crates/omni-core/src/manager.rs:1637-2560 | In every reachable state a relayed peer leaves RelayOk exactly by an answer, an update with something to probe, a removal, a disconnect, or a tick that gives up an old ping of it as in `TickMoves`; while it stays in the table without being DirectOk it keeps flag and session |
| ProbeBudget.TickConserves | crates/omni-core/src/manager.rs:2411-2499 | A tick conserves the budget of every endpoint, the probes it had plus the retries its pings have left, and no endpoint loses a probe |
| ProbeBudget.StepKeepsCourse | crates/omni-core/src/manager.rs:2411-2499 | Every undisturbed input keeps all budgets, that a peer without pings and in need of the relay is given up, and that a peer not given up is in the state it had |
| ProbeBudget.FallbackInTime | crates/omni-core/src/manager.rs:2405-2504 | A peer with pings and nothing working, undisturbed (no answer, no ping from a new address, no update or removal, fresh ids) for the lifetime of a ping, is in RelayTry or beyond (Failed without a relay) if every budget was three; if not, one that was still being tried keeps its state |
| ProbeBudget.ShortBudgetNeverFallsBack | crates/omni-core/src/manager.rs:2405-2504 | While one endpoint has a short budget, for instance one that no ping aims at, a peer still being tried keeps its state over every undisturbed run, however long |
| ProbeBudget.UpdateGrants | crates/omni-core/src/manager.rs:2125-2355 | An update that probes leaves its peer in DirectTry and adds 1 + max_retries to the budget of exactly the endpoints whose ping was sent |
| ProbeBudget.UpdateStallsIff | crates/omni-core/src/manager.rs:2125-2355 | Any update leaves its peer in DirectTry without pings if and only if the peer had none, nothing works, the strategy is not RelayOnly, and no ping was sent (or, under Direct with nothing to probe, it was in DirectTry) |
| ProbeBudget.DiscoveryGrants | crates/omni-core/src/manager.rs:1724-1793 | A peer discovered by its ping gets a budget of max_retries for its one endpoint if the ping back was sent, and is stalled if and only if it was not and no older ping is left |
| ProbeBudget.NewcomerFallsBackIff | crates/omni-core/src/manager.rs:2029-2504 | End to end: a peer first heard of from signaling, to be probed and never answering, is given up within the lifetime of a ping if every ping of that update was sent, and otherwise stays in DirectTry (max_retries at least 2) |
| RelayBinding.TickAsksForWaitingPeers | crates/omni-core/src/manager.rs:2506-2554 | A tick sends a relay request for a peer under a key, and to the relay, if and only if a relay is configured, that send works, and the peer is in RelayTry after the tick with that key |
| RelayBinding.AckMovesIff | crates/omni-core/src/manager.rs:1876-1997 | An acknowledgement moves the peer at a place of the table if and only if that peer waits, success comes with a session, and the acknowledgement points there: first with the target key, or without one the first waiting peer, on success looked up again by its key; every other peer stays as it was |
| RelayBinding.AckOutcome | crates/omni-core/src/manager.rs:1911-1994 | What it does then, in full: RelayOk, flag, last contact, session, and WireGuard's endpoint, which is the source of the acknowledgement if transparent, else the named relay or the configured server; or Failed |
| RelayBinding.AckIgnored | crates/omni-core/src/manager.rs:1876-1997 | Any other acknowledgement changes nothing and sends nothing |
| RelayBinding.WaitingPeerIsServed | crates/omni-core/src/manager.rs:1911-1932 | A waiting peer whose key nobody shares is in RelayOk with its session after its acknowledgement |
| RelayBinding.BothEndsWaitAlike | crates/omni-core/src/manager.rs:145-192 | Two nodes that learn of each other from signaling both wait for the relay at once or neither does, and they do exactly when both NATs are symmetric |
| Mesh.EntriesComeFrom | crates/omni-core/src/manager.rs:1684-1768 | A table entry is old with its old key, or comes from this step's update or ping with the key it named |
| Mesh.StepSends | crates/omni-core/src/manager.rs:1667-1682 | A node only sends pings of its own identity with its own ids, and pongs echoing the ping it handles under its own key |
| Mesh.ActionKeepsWorldOk | crates/omni-core/src/manager.rs:1658-1872 | Whatever one honest node does keeps the invariant over all nodes, messages and handled pings |
| Mesh.DirectMeansMutual | crates/omni-core/src/manager.rs:1658-1872 | In every reachable world, if A holds an address as DirectOk, it is the address of the member B whose key A stores, and B has handled a ping of A while B's table held A's address under A's key |
| Mesh.OutstandingIsOut | crates/omni-core/src/manager.rs:1784-1793 | In every reachable world a ping that a node waits for is in the network, so it can reach anybody |
| Mesh.ExchangeConnects | crates/omni-core/src/manager.rs:1658-1872 | Liveness: once B has handled a ping with A's outstanding id and its reply was sent, then, whatever happens in between, while A waits for that id and holds the address under B's key, the reply can reach A, and when it does A holds it as DirectOk |
| NetPrefix.Ipv6NetworkAddress | crates/omni-tun/src/lib.rs:566-602 | The segment loop computes a - a mod 2^(128 - p) on the 128-bit value, for every u8 prefix (above 128: the address itself) |
| NetPrefix.MaskedIsNet | crates/omni-tun/src/lib.rs:573-585 | Masking segment by segment is clearing the low bits of the whole number, for any number of segments |
| NetPrefix.AndMask | crates/omni-tun/src/lib.rs:581-582 | Bitwise and with a contiguous mask rounds down to a multiple of the power of two |
| NetPrefix.OnesOfMask | crates/omni-tun/src/lib.rs:260 | The popcount of a contiguous mask is its prefix length |
| NetPrefix.NetComposes | crates/omni-tun/src/lib.rs:566-602 | The network of a network is that of the shorter prefix; taking it twice changes nothing |
| NetPrefix.SameNetworkIff | crates/omni-tun/src/lib.rs:566-602 | Two addresses have the same network if and only if their first p bits agree |
| NetPrefix.RouteIsNetworkIff | crates/omni-tun/src/lib.rs:250-262 | The route is the network of its own prefix length for every VIP if and only if the mask is contiguous |
| NetPrefix.RouteOfMask | crates/omni-tun/src/lib.rs:256-260 | A mask of ones followed by k zeros routes the network of prefix 32 - k, and that is the prefix of the route |
| NetPrefix.DefaultIsSlash24 | crates/omni-tun/src/lib.rs:263-268 | The path without a mask equals mask 255.255.255.0 |
| PluginRegistry.PluginRegistry.RegisterPackage | crates/omni-plugin/src/registry.rs:199-232 | The entry is replaced by a fresh one and the id is pushed once more under each capability |
| PluginRegistry.PluginRegistry.UnregisterPlugin | crates/omni-plugin/src/registry.rs:235-265 | The entry and all its occurrences under its current capabilities go; an unknown id changes nothing and is reported |
| PluginRegistry.PluginRegistry.ReadState | crates/omni-plugin/src/registry.rs:136-162 | In any order of the file, exactly the registered plugins it names get its settings; a missing or unreadable file changes nothing |
| PluginRegistry.PluginRegistry.WriteState | crates/omni-plugin/src/registry.rs:165-196 | The file holds the settings of exactly the registered plugins |
| PluginRegistry.PluginRegistry.ByCapability | crates/omni-plugin/src/registry.rs:281-295 | The query returns the enabled entries of the indexed ids in index order |
| PluginRegistry.AlwaysComplete | crates/omni-plugin/src/registry.rs:199-265 | After any run every registered plugin is indexed under each capability it declares |
| PluginRegistry.IndexedIff | crates/omni-plugin/src/registry.rs:199-265 | After any run an id is indexed under a capability if and only if some call registered it with that capability and no later call unregistered it while it declared it |
| PluginRegistry.QueryIsScanIff | crates/omni-plugin/src/registry.rs:281-295 | After any run the query contains the scan of all plugins, and equals it as a set if and only if no enabled plugin was registered with the capability, never unregistered while declaring it, and last registered without it |
| PluginRegistry.QueryListsDuplicates | crates/omni-plugin/src/registry.rs:225-227 | A query lists an enabled plugin as often as it was registered with the capability since it was last unregistered while declaring it |
| PluginRegistry.StableIsNeverStale | crates/omni-plugin/src/registry.rs:199-265 | An id whose own registrations agree on a capability is never stale for it, whatever other ids do |
| PluginRegistry.StableQueryIsScan | crates/omni-plugin/src/registry.rs:281-295 | So while every id keeps declaring, or not declaring, a capability, the query for it is exact in every reachable state |
| PluginRegistry.ChangedCapabilitiesGoStale | crates/omni-plugin/src/registry.rs:199-265 | A plugin re-registered with another capability is still found under the old one, even after an unregister |
| PluginManager.PluginManager.DiscoverPlugins | crates/omni-plugin/src/manager.rs:100-118 | Registers every package in order, then applies the state file; returns the ids in order |
| PluginManager.DiscoverKeepsSettingsIff | crates/omni-plugin/src/manager.rs:100-118 | Discovery keeps the settings of a registered plugin if and only if the file agrees with them or, lacking the id, the found package (if any) has them as defaults |
| PluginManager.LoadOutcome | crates/omni-plugin/src/manager.rs:121-182 | A load ends Done if and only if the plugin is registered, enabled and not running and package and sandbox answer; it then runs with that package in state Loaded. Each failure has its exact condition and trace, and every other plugin is untouched |
| PluginManager.UnloadOutcome | crates/omni-plugin/src/manager.rs:185-197 | The plugin does not run afterwards and is Stopped if it did; Done if and only if a registered plugin ran |
| PluginManager.InstallOutcome | crates/omni-plugin/src/manager.rs:230-251 | A readable package is registered afresh, with a snapshot in the file if saving works; what runs goes on |
| PluginManager.UninstallOutcome | crates/omni-plugin/src/manager.rs:254-269 | The plugin is stopped and forgotten, also when removing its files or saving fails, with the exact result |
| PluginManager.EnableOutcome | crates/omni-plugin/src/manager.rs:272-277 | The flag is set, also when saving fails; only Disabled becomes Discovered |
| PluginManager.DisableOutcome | crates/omni-plugin/src/manager.rs:280-288 | The plugin is stopped, registered or not, and its flag cleared, also when saving fails |
| PluginManager.ConfigOutcome | crates/omni-plugin/src/manager.rs:291-298 | The configuration is stored, also when saving fails, and nothing more happens to a plugin that does not run or was not saved |
| PluginManager.ReloadOutcome | crates/omni-plugin/src/manager.rs:299-307 | After the save a running plugin is reloaded, and runs afterwards if and only if it is enabled and package and sandbox answer |
| PluginManager.DiscoverOutcome | crates/omni-plugin/src/manager.rs:100-118 | Exactly the found packages become registered, the last one for each id, with the saved settings or the defaults; nothing starts or stops |
| PluginManager.RunningIff | crates/omni-plugin/src/manager.rs:121-310 | After any run of calls, whatever fails in it, a plugin runs with a package if and only if some load or reload started it with that package and no later call started or stopped it |
| PluginManager.AlwaysAgrees | crates/omni-plugin/src/manager.rs:100-310 | After any run of calls whose saves succeed, from any state file and with any packages: running implies registered and enabled, Loaded implies running, and a registered plugin has its saved settings or was never saved and is enabled |
| PluginManager.SettingsSurviveIff | crates/omni-plugin/src/manager.rs:100-118 | After any such run a further discovery keeps the enabled flag of every registered plugin, and keeps its configuration if and only if it was ever saved, is not found again, or is found with that configuration as its default |
| PluginManager.DiscoveryForgetsLoadedIff | crates/omni-plugin/src/manager.rs:100-118 | Discovery keeps running plugins in state Loaded if and only if it finds none of them |
| PluginManager.FailedSaveIsForgotten | crates/omni-plugin/src/manager.rs:280-288 | A disable whose save failed is undone by the next discovery of the plugin |
| Lifecycle.ConnectionManager.Disconnect | crates/omni-core/src/manager.rs:3182-3298 | Performs exactly the steps of a stop job |
| Lifecycle.ConnectionManager.ConnectWithToken | crates/omni-core/src/manager.rs:908-948 | Performs exactly the steps of a start job, and succeeds exactly when the join and the set-up do |
| Lifecycle.HelperServer.HandleRequest | crates/omni-helper/src/lib.rs:128-244 | A start is queued unless the status read at that moment is Connected or Connecting; a stop always is |
| Lifecycle.HelperAlwaysOk | crates/omni-helper/src/lib.rs:128-244 | For every interleaving of requests, job steps and dispatcher inputs at most one TUN is open, it is the manager's; between jobs the manager is connected with everything set or down with all tables empty; within a job the reported state is the one of its place; relayed peers have a session even half-way through a disconnect |
| Lifecycle.JobEnds | crates/omni-core/src/manager.rs:908-948 | From any settled state a successful start ends Connected with its addresses, a failed one Authenticated without a TUN, and a stop in the initial state |
| Lifecycle.RequestOutcome | crates/omni-helper/src/lib.rs:141-167 | A request leaves the queue as it is if and only if it is a start that finds Connected or Connecting; otherwise exactly its job is added |
| Lifecycle.StartWhileUpIsNoOp | crates/omni-helper/src/lib.rs:141-160 | Such a start might as well not have arrived: any sequence of actions around it has the same outcome without it |
| Lifecycle.JobRunsToItsEnd | crates/omni-helper/src/lib.rs:166-191 | A job that has the manager is over after as many steps as it has left and has done what it does when it runs alone |
| Lifecycle.StartConnects | crates/omni-helper/src/lib.rs:128-198 | End to end, from every reachable helper that is down without an active job: a start whose join works ends Connected on its network with its addresses and one TUN, any other Authenticated with none |
| Lifecycle.StopDisconnects | crates/omni-helper/src/lib.rs:236-244 | From every reachable helper without an active job a stop ends in the initial state |
| Version.NewerIsLex | crates/omni-core/src/updater.rs:626-647 | Newer means greater in lexicographic order on (major, minor, patch, release) |
| Version.NewerIsStrictWeak | crates/omni-core/src/updater.rs:608-648 | On all strings: irreflexive, transitive, and unordered versions are exactly those of equal rank |
| Version.LeadingVsDoNotMatter | crates/omni-core/src/updater.rs:610 | The comparison ignores any number of leading v's on either side |
| Version.RoundTripIff | crates/omni-core/src/updater.rs:609-621 | Parsing a rendered version gives it back if and only if each component fits 32 bits; the pre-release always comes back |
| Version.ParseU32Iff | crates/omni-core/src/updater.rs:616-618 | A number is read exactly from digits that fit 32 bits, with at most one plus sign before them |
| Version.UnreadableIsZero | crates/omni-core/src/updater.rs:616-618 | A component that cannot be read counts as 0, any other as what was read |
| Version.OtherLengths | crates/omni-core/src/updater.rs:615-618 | Missing components count as 0, and components after the third are ignored |
| Version.OneNumber | crates/omni-core/src/updater.rs:609-621 | A version of one number, or of none, has zeros for the rest |
| Version.TwoNumbers | crates/omni-core/src/updater.rs:609-621 | A version of two numbers has patch 0 |
| Version.NewerOnRendered | crates/omni-core/src/updater.rs:608-648 | On rendered versions: section 11, items 1 to 3, of Semantic Versioning 2.0.0 |
| BaseUrl.GetApiBaseUrl | crates/omni-core/src/config.rs:834-850 | The strip loops, which trim runs of one suffix at a time, end and compute the stem, to which one version is appended |
| BaseUrl.StemIff | crates/omni-core/src/config.rs:838-847 | The stem is the only string that ends in no slash or version suffix and gives the input by appending such suffixes: the order of stripping does not matter |
| BaseUrl.UrlIsCanonical | crates/omni-core/src/config.rs:834-850 | Appending any mix of the suffixes to the input does not change the URL, nor does feeding the URL back |

## Left out

- Update in place of a single `PeerState`: a peer is a value that its table replaces. The code reaches a peer only through its table under a lock, so no alias is lost.
- Wire encoding, parsing and authentication of messages: steps take decoded messages. A relay address that does not parse is a missing one.
- Relayed data, WireGuard packets, heartbeats, port mapping, STUN, exit-node and Nucleus-server roles: they do not touch the modelled tables, or only wrap the operating system.
- Round-trip times, `discovered_at`, load timestamps, error and log texts, responsive-endpoint counts and the per-peer part of the debug report.
- Sockets, routes, DNS, adapters and services. The lifecycle is that of the platforms that close the TUN device on disconnect; reuse of the device on Windows is not modelled.
- Background tasks that outlive the three-second wait of a disconnect: the model stops them at its first step.
- Tunnel.OmniTun.Add: allowed addresses are values, not strings, and other calls on the interface (packets, keep-alives) do not change its table.
- NetPrefix.Ipv6NetworkAddress: starts from the eight segments; text that is no IPv6 address, which the code returns unchanged, and printing the result are not modelled. Prefix lengths are those of a u8.
- Lifecycle.HelperServer.HandleRequest: the status and exit-node requests, which change no modelled state, and malformed arguments, which are answered with an error.
- Lifecycle.HelperServer.RunJob: runs a job at one go; the interleaving with requests and dispatcher inputs is the state machine of `HelperAlwaysOk`.
- `load_all`, `unload_all`, `initialize` and `shutdown` of the plugin manager: they are runs of the modelled calls. Calls of the manager do not overlap, locks are never poisoned, and configurations are opaque values.
- WASM sandboxing, package extraction and signatures: their outcome is a parameter.
- HTTP and WebSocket clients, login flows, the command line and the user interface.
