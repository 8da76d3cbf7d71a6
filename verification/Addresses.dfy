/** Socket addresses and the IPv4-mapped form of a dual-stack socket
    (crates/omni-core/src/manager.rs:69-106). */
module Addresses {
  import opened Common

  // `flow` and `scope` are the flow label and scope id that std::net::SocketAddrV6 carries and compares.
  datatype SocketAddr = V4(ip4: U32, port: U16) | V6(ip6: U128, port: U16, flow: U32, scope: U32)

  // ::ffff:a.b.c.d, section 2.5.5.2 of RFC 4291
  predicate IsMapped(ip: U128) { ip / 0x1_0000_0000 == 0xFFFF }

  function Normalize(a: SocketAddr): SocketAddr {
    match a
    case V6(ip, port, _, _) => if IsMapped(ip) then V4(ip % 0x1_0000_0000, port) else a
    case V4(_, _) => a
  }

  function ToMapped(a: SocketAddr): SocketAddr {
    match a
    case V4(ip, port) => V6(0xFFFF_0000_0000 + ip, port, 0, 0)
    case V6(_, _, _, _) => a
  }

  /** The address handed to the socket: only macOS maps. */
  function SendAddr(macos: bool, a: SocketAddr): SocketAddr { if macos then ToMapped(a) else a }

  predicate Plain(a: SocketAddr) { a.V6? ==> !IsMapped(a.ip6) }

  /** Receiving undoes what sending did to an address, on either platform; a dual-stack socket is only given
      IPv6 addresses on macOS, and elsewhere what it was asked for; normalising is idempotent and its image
      is exactly the plain addresses. */
  lemma NormalizeUndoesSend(a: SocketAddr, macos: bool)
    ensures Normalize(SendAddr(macos, a)) == Normalize(a) && SendAddr(macos, a).port == a.port
    ensures macos ==> SendAddr(macos, a).V6?
    ensures !macos || a.V6? ==> SendAddr(macos, a) == a
    ensures Normalize(Normalize(a)) == Normalize(a)
    ensures Plain(a) <==> Normalize(a) == a
  {
  }

  /** The other direction is an inverse on V6 addresses only, and there exactly when no
      flow label or scope id of a mapped address gets lost. */
  lemma ToMappedUndoesNormalizeIff(a: SocketAddr)
    ensures ToMapped(Normalize(a)) == a <==> a.V6? && (IsMapped(a.ip6) ==> a.flow == 0 && a.scope == 0)
  {
  }
}
