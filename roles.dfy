/**
 * The two ends of a tunnel and the fixed names and addresses each end gets: the bot
 * always uses the same IPv6 and GRE addresses, whatever the servers.
 */
module Roles {

  /** The Iran server and the Kharej (foreign) server. */
  datatype Side = Iran | Kharej

  function Peer(side: Side): (p: Side)
    ensures p != side
  {
    match side
    case Iran => Kharej
    case Kharej => Iran
  }

  /** The suffix of every interface name on that end. */
  function Suffix(side: Side): string {
    match side
    case Iran => "IR"
    case Kharej => "KH"
  }

  /** The 6to4 (sit) interface, carrying IPv6 over the servers' IPv4 addresses. */
  function SitInterface(side: Side): string {
    "6to4_To_" + Suffix(side)
  }

  /** The GRE-over-IPv6 interface, carrying IPv4 between the two GRE addresses. */
  function GreInterface(side: Side): string {
    "GRE6Tun_To_" + Suffix(side)
  }

  /** The IPv6 address each end takes on its 6to4 interface. */
  function Ipv6(side: Side): string {
    match side
    case Iran => "2002:504b:d769::2"
    case Kharej => "2002:504b:d769::1"
  }

  /** The IPv4 address each end takes on its GRE interface. */
  function GreAddress(side: Side): string {
    match side
    case Iran => "172.20.40.1"
    case Kharej => "172.20.40.2"
  }

  /** The IPsec identity of each end. */
  function Identity(side: Side): string {
    match side
    case Iran => "@iran"
    case Kharej => "@kharej"
  }

  /** No two ends share an address, an identity or an interface name. */
  lemma SidesDistinct()
    ensures Ipv6(Iran) != Ipv6(Kharej) && GreAddress(Iran) != GreAddress(Kharej)
    ensures Identity(Iran) != Identity(Kharej)
    ensures GreInterface(Iran) != GreInterface(Kharej) && SitInterface(Iran) != SitInterface(Kharej)
  {
    assert GreAddress(Iran)[10] != GreAddress(Kharej)[10];
    assert Ipv6(Iran)[16] != Ipv6(Kharej)[16];
    assert GreInterface(Iran)[11] != GreInterface(Kharej)[11];
    assert SitInterface(Iran)[8] != SitInterface(Kharej)[8];
  }
}
