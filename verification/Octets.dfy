/** Octets, and numbers kept in one octet. */
module Octets {
  type Octet = bv8

  function Value(o: Octet): (n: nat)
    ensures n < 256
  {
    o as int
  }

  /** Storing a number in an unsigned char keeps its low eight bits. */
  function ToOctet(n: nat): Octet {
    (n % 256) as bv8
  }

  lemma ValueOf(n: nat)
    requires n < 256
    ensures Value(ToOctet(n)) == n
  {
  }
}
