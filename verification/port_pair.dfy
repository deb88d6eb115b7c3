/** The split of a port into the two numbers `p1,p2` of section 4.1.2 of RFC 959 (ftp_server/src/port/mod.rs). */
module PortPair {
  import opened Ascii
  import opened CommandFields
  import SC = ServerCommand

  /** Rust's `as u8`: the low eight bits. */
  function AsU8(x: nat): byte
  {
    x % 256
  }

  /**
   * `get_ftp_port_pair`: the high and the low byte of the port. Neither cast truncates, and
   * the PORT formula `p1 * 256 + p2` gives the port back.
   */
  function FtpPortPair(port: u16): (pair: (byte, byte))
    ensures pair.0 == port / 256 && pair.1 == port % 256
    ensures pair.0 * 256 + pair.1 == port
  {
    var first := port / 256;
    var second := port - first * 256;
    (AsU8(first), AsU8(second))
  }

  /** The PORT line announcing `ip` and the pair of `port`. */
  function PortLine(ip: SC.Ipv4, pair: (byte, byte)): seq<byte>
  {
    SC.WithArgument(SC.PORT, JoinWithComma(Numerals([ip.a, ip.b, ip.c, ip.d, pair.0, pair.1])))
  }

  /** The server's PORT parser reads the pair of any port back as that port. */
  lemma PairParsesBack(ip: SC.Ipv4, port: u16)
    ensures SC.Parse(PortLine(ip, FtpPortPair(port))) == SC.Parsed(SC.Port(ip, port))
  {
    assert PortLine(ip, FtpPortPair(port)) == SC.Unparse(SC.Port(ip, port));
    SC.ParsePortUnparse(ip, port);
  }
}
