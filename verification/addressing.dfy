/** The addresses `ConfigureNetwork` reports to the child. */
module Addressing {
  import opened Wrappers
  import opened Decimal
  import opened Net

  /** Host-part offsets of the guest, the gateway and the DNS forwarder within the network. */
  const GuestOffset := 100
  const GatewayOffset := 2
  const DNSOffset := 3

  datatype AddressPlan = AddressPlan(ip: string, netmask: int, gateway: string, dns: string)

  /** The plan used when no network is configured: slirp4netns's built-in 10.0.2.0/24. */
  const DefaultPlan := AddressPlan("10.0.2.100", 24, "10.0.2.2", "10.0.2.3")

  /**
   * The address part of `ConfigureNetwork`. With a configured network each
   * address is an offset from the network address; the three offsets are
   * computed in the order guest, gateway, DNS, and the first failure is
   * returned unchanged.
   */
  function PlanAddresses(ipnet: Option<IPNet>, lib: NetLib): (r: Result<AddressPlan, string>)
    ensures ipnet.None? ==> r == Success(AddressPlan("10.0.2.100", 24, "10.0.2.2", "10.0.2.3"))
    ensures ipnet.Some? ==>
      var n := ipnet.value;
      var guest := lib.addIPInt(n.ip, 100);
      var gateway := lib.addIPInt(n.ip, 2);
      var dns := lib.addIPInt(n.ip, 3);
      && (r.Success? <==> guest.Success? && gateway.Success? && dns.Success?)
      && (r.Success? ==>
            r.value == AddressPlan(lib.ipString(guest.value), lib.maskOnes(n.mask),
                                   lib.ipString(gateway.value), lib.ipString(dns.value)))
      && (guest.Failure? ==> r == Failure(guest.error))
      && (guest.Success? && gateway.Failure? ==> r == Failure(gateway.error))
      && (guest.Success? && gateway.Success? && dns.Failure? ==> r == Failure(dns.error))
  {
    match ipnet
    case None => Success(DefaultPlan)
    case Some(n) =>
      match lib.addIPInt(n.ip, GuestOffset)
      case Failure(e) => Failure(e)
      case Success(guest) =>
        var netmask := lib.maskOnes(n.mask);
        match lib.addIPInt(n.ip, GatewayOffset)
        case Failure(e) => Failure(e)
        case Success(gateway) =>
          match lib.addIPInt(n.ip, DNSOffset)
          case Failure(e) => Failure(e)
          case Success(dns) =>
            Success(AddressPlan(lib.ipString(guest), netmask, lib.ipString(gateway), lib.ipString(dns)))
  }

  // A reference IPv4 instance of the library. It is written to fail on
  // overflow and on non-IPv4 addresses; two lemmas below use it, one to relate
  // the defaults to the configured-network branch, one to show that branch
  // failing rather than wrapping. Neither is a claim about iputils.

  /** The 32-bit value of a 4-byte address, most significant byte first. */
  function IPv4Value(ip: IP): nat
    requires |ip| == 4
  {
    (((ip[0] as int) * 256 + ip[1]) * 256 + ip[2]) * 256 + ip[3]
  }

  function IPv4Bytes(v: nat): (ip: IP)
    requires v < 0x1_0000_0000
    ensures |ip| == 4 && IPv4Value(ip) == v
  {
    var w := v / 256;
    var u := w / 256;
    assert v == w * 256 + v % 256;
    assert w == u * 256 + w % 256;
    assert u == (u / 256) * 256 + u % 256;
    [u / 256, u % 256, w % 256, v % 256]
  }

  /** IPv4 addition that fails instead of leaving the 32-bit space. */
  function AddIPv4(ip: IP, n: int): Result<IP, string>
  {
    if |ip| != 4 then Failure("not an IPv4 address")
    else if !(0 <= IPv4Value(ip) + n < 0x1_0000_0000) then Failure("address out of range")
    else Success(IPv4Bytes(IPv4Value(ip) + n))
  }

  /** Dotted-decimal text of a 4-byte address. */
  function DottedQuad(ip: IP): string
  {
    if |ip| != 4 then "?"
    else Itoa(ip[0]) + "." + Itoa(ip[1]) + "." + Itoa(ip[2]) + "." + Itoa(ip[3])
  }

  /** Leading one bits of a mask byte given as 1...10...0; 0 for any other byte. */
  function ByteOnes(b: Byte): nat
  {
    if b == 255 then 8 else if b == 254 then 7 else if b == 252 then 6 else if b == 248 then 5
    else if b == 240 then 4 else if b == 224 then 3 else if b == 192 then 2 else if b == 128 then 1
    else 0
  }

  /** Leading one bits of a mask. */
  function MaskOnes(mask: IPMask): int
  {
    if |mask| == 0 then 0
    else if mask[0] == 255 then 8 + MaskOnes(mask[1..])
    else ByteOnes(mask[0])
  }

  /** `addr/prefix` text of an IPv4 network. */
  function CIDRText(n: IPNet): string
  {
    DottedQuad(n.ip) + "/" + Itoa(MaskOnes(n.mask))
  }

  const IPv4Reference := NetLib(AddIPv4, DottedQuad, CIDRText, MaskOnes)

  /** The three offsets from 10.0.2.0 under the reference arithmetic. */
  lemma SlirpSums()
    ensures AddIPv4([10, 0, 2, 0], GuestOffset) == Success([10, 0, 2, 100])
    ensures AddIPv4([10, 0, 2, 0], GatewayOffset) == Success([10, 0, 2, 2])
    ensures AddIPv4([10, 0, 2, 0], DNSOffset) == Success([10, 0, 2, 3])
  {
    assert IPv4Value([10, 0, 2, 0]) == 0x0A00_0200;
    assert IPv4Bytes(0x0A00_0200 + 100) == [10, 0, 2, 100];
    assert IPv4Bytes(0x0A00_0200 + 2) == [10, 0, 2, 2];
    assert IPv4Bytes(0x0A00_0200 + 3) == [10, 0, 2, 3];
  }

  /** The dotted-decimal text of the three default addresses. */
  lemma SlirpQuads()
    ensures DottedQuad([10, 0, 2, 100]) == "10.0.2.100"
    ensures DottedQuad([10, 0, 2, 2]) == "10.0.2.2"
    ensures DottedQuad([10, 0, 2, 3]) == "10.0.2.3"
  {
    assert Itoa(10) == "10" && Itoa(0) == "0" && Itoa(2) == "2" && Itoa(3) == "3" && Itoa(100) == "100";
  }

  /**
   * The built-in plan is the configured-network plan of 10.0.2.0/24: guest
   * .100, gateway .2, DNS .3, a 24-bit prefix.
   */
  lemma DefaultsAreSlirpNetwork()
    ensures PlanAddresses(Some(IPNet([10, 0, 2, 0], [255, 255, 255, 0])), IPv4Reference) == Success(DefaultPlan)
  {
    SlirpSums();
    SlirpQuads();
    var mask: IPMask := [255, 255, 255, 0];
    assert mask[1..][1..][1..][1..] == [];
    assert MaskOnes(mask) == 24;
  }

  /**
   * Under the reference library a configured IPv4 network yields a plan
   * exactly when its guest address still fits in 32 bits; nothing wraps.
   */
  lemma ReferencePlanFitsOrFails(n: IPNet)
    requires |n.ip| == 4
    ensures PlanAddresses(Some(n), IPv4Reference).Success? <==> IPv4Value(n.ip) + GuestOffset < 0x1_0000_0000
    ensures PlanAddresses(Some(n), IPv4Reference).Failure? ==>
      PlanAddresses(Some(n), IPv4Reference).error == "address out of range"
  {
  }
}
