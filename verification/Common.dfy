/** Small shared vocabulary: optional values and the identifiers of the protocol. */
module Common {

  datatype Option<+T> = None | Some(value: T) {
    function Or<U>(f: T -> U, default: U): U {
      match this case None => default case Some(v) => f(v)
    }
  }

  type U16 = n: nat | n < 0x1_0000
  type U32 = n: nat | n < 0x1_0000_0000
  type U128 = n: nat | n < 0x1_0000_0000_0000_0000_0000_0000_0000_0000

  // Identifiers that the code only copies and compares.
  type Key = nat        // WireGuard public key
  type TxId = nat       // disco transaction id
  type SessionId = nat  // relay session id
  type Vip = U32        // IPv4 virtual address
  type Vip6 = U128      // IPv6 virtual address
}
