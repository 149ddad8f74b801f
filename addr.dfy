/** The FFI-safe socket address of `src/proto_impl/addr.rs`: a port and four IPv4 octets, converted
    from and to Rust's `SocketAddr`. Only IPv4 is supported; converting an IPv6 address panics. */
module Addr {
  import opened Wrappers
  import opened Ints

  /** `std::net::Ipv4Addr`, built by `Ipv4Addr::new(a, b, c, d)`. */
  datatype Ipv4Addr = Ipv4Addr(a: u8, b: u8, c: u8, d: u8) {
    /** `Ipv4Addr::octets`: the four bytes in network order. */
    function Octets(): (o: Octets)
      ensures o[0] == a && o[1] == b && o[2] == c && o[3] == d
    {
      [a, b, c, d]
    }
  }

  /** `std::net::Ipv6Addr`, as its eight 16-bit segments. */
  datatype Ipv6Addr = Ipv6Addr(segments: seq<u16>)

  /** `std::net::SocketAddr`. */
  datatype SocketAddr =
    | V4(ip: Ipv4Addr, port: u16)
    | V6(ip6: Ipv6Addr, port: u16, flowinfo: u32, scopeId: u32)

  type Octets = s: seq<u8> | |s| == 4 witness [0, 0, 0, 0]

  /** The `#[repr(C)]` struct handed across the FFI boundary. */
  datatype IpAddr = IpAddr(port: u16, address: Octets)

  const V6_PANIC: string := "not supported"

  /** `From<SocketAddr> for IpAddr`. */
  function FromSocketAddr(addr: SocketAddr): (r: Completion<IpAddr>)
    ensures r.Returned? <==> addr.V4?
    ensures addr.V4? ==> r.value.port == addr.port && r.value.address == addr.ip.Octets()
    ensures addr.V6? ==> r == Panicked(Some(V6_PANIC))
  {
    match addr
    case V4(ip, port) => Returned(IpAddr(port, ip.Octets()))
    case V6(_, _, _, _) => Panicked(Some(V6_PANIC))
  }

  /** `Into<SocketAddr> for IpAddr`: always an IPv4 address. */
  function IntoSocketAddr(x: IpAddr): (a: SocketAddr)
    ensures a.V4? && a.port == x.port
    ensures a.ip.Octets() == x.address
  {
    V4(Ipv4Addr(x.address[0], x.address[1], x.address[2], x.address[3]), x.port)
  }

  /** Converting keeps the port. */
  lemma FromKeepsPort(addr: SocketAddr)
    requires addr.V4?
    ensures FromSocketAddr(addr).value.port == addr.port
  {
  }

  /** Converting keeps the four octets, in order. */
  lemma FromKeepsOctets(addr: SocketAddr, i: nat)
    requires addr.V4? && i < 4
    ensures FromSocketAddr(addr).value.address[i] == addr.ip.Octets()[i]
    ensures FromSocketAddr(addr).value.address[0] == addr.ip.a
    ensures FromSocketAddr(addr).value.address[3] == addr.ip.d
  {
  }

  /** An IPv6 address never yields an `IpAddr`. */
  lemma V6Rejected(addr: SocketAddr)
    requires addr.V6?
    ensures !FromSocketAddr(addr).Returned?
  {
  }

  /** Round trip from the Rust side: every IPv4 socket address survives `into(from(a))`. */
  lemma SocketAddrRoundTrip(a: SocketAddr)
    requires a.V4?
    ensures FromSocketAddr(a).Returned?
    ensures IntoSocketAddr(FromSocketAddr(a).value) == a
  {
  }

  /** Round trip from the C side: every `IpAddr` survives `from(into(x))`. */
  lemma IpAddrRoundTrip(x: IpAddr)
    ensures FromSocketAddr(IntoSocketAddr(x)) == Returned(x)
  {
    var o := IntoSocketAddr(x).ip.Octets();
    assert o == x.address;
  }

  /** Two `IpAddr`s that denote the same socket address are equal: the encoding loses nothing. */
  lemma {:induction false} IntoInjective(x: IpAddr, y: IpAddr)
    requires IntoSocketAddr(x) == IntoSocketAddr(y)
    ensures x == y
  {
    IpAddrRoundTrip(x);
    IpAddrRoundTrip(y);
  }
}
