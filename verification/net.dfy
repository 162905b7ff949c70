/**
 * The parts of Go's `net` package and of rootlesskit's `iputils` that the
 * driver calls. Their code is not part of this model, so they enter as a
 * record of functions supplied by the caller.
 */
module Net {
  import opened Wrappers

  type Byte = b: int | 0 <= b < 256

  /** `net.IP`: the address bytes (4 for IPv4, 16 for IPv6). */
  type IP = seq<Byte>

  /** `net.IPMask`: the mask bytes. */
  type IPMask = seq<Byte>

  /** `net.IPNet`: a network address and its mask. */
  datatype IPNet = IPNet(ip: IP, mask: IPMask)

  datatype NetLib = NetLib(
    // iputils.AddIPInt: the address `n` positions after `ip`, or an error
    addIPInt: (IP, int) -> Result<IP, string>,
    // net.IP.String
    ipString: IP -> string,
    // net.IPNet.String, the `addr/prefix` text passed to --cidr
    ipNetString: IPNet -> string,
    // the first result of net.IPMask.Size: the count of leading one bits
    maskOnes: IPMask -> int)
}
