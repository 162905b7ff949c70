/**
 * The command line `ConfigureNetwork` starts slirp4netns with:
 * `--mtu <n> [--disable-host-loopback] [--cidr <net>] [--api-socket <path>] [--create-sandbox] <pid> tap0`.
 */
module HelperCommand {
  import opened Wrappers
  import opened Decimal
  import opened Net
  import opened Driver
  import opened Capabilities

  const MTUOption := "--mtu"

  /** The optional switches, each present only when its field is set, in this fixed order. */
  function OptionalArgs(d: Parent, lib: NetLib): seq<string>
  {
    (if d.disableHostLoopback then [DisableHostLoopbackOption] else [])
    + (if d.ipnet.Some? then [CIDROption, lib.ipNetString(d.ipnet.value)] else [])
    + (if d.apiSocketPath != "" then [APISocketOption, d.apiSocketPath] else [])
    + (if d.createSandbox then [CreateSandboxOption] else [])
  }

  /** How many tokens the optional switches take: one per bare switch, two per switch with a value. */
  function OptionalTokenCount(d: Parent): nat
  {
    (if d.disableHostLoopback then 1 else 0)
    + (if d.ipnet.Some? then 2 else 0)
    + (if d.apiSocketPath != "" then 2 else 0)
    + (if d.createSandbox then 1 else 0)
  }

  /** The full argument list for the helper serving process `pid`. */
  function HelperArgs(d: Parent, pid: int, lib: NetLib): (args: seq<string>)
    ensures |args| == 4 + OptionalTokenCount(d)
    // the MTU and pid are the exact strconv.Itoa tokens, so they read back as the values
    ensures args[0] == MTUOption && args[1] == Itoa(MTU(d)) && ParseInt(args[1]) == Some(MTU(d))
    ensures args[|args| - 2] == Itoa(pid) && ParseInt(args[|args| - 2]) == Some(pid)
    ensures args[|args| - 1] == TapName
  {
    [MTUOption, Itoa(MTU(d))] + OptionalArgs(d, lib) + [Itoa(pid), TapName]
  }

  /** What a command line asks of the helper, field by field. */
  datatype Invocation = Invocation(
    mtu: int,
    disableHostLoopback: bool,
    cidr: Option<string>,
    apiSocket: Option<string>,
    createSandbox: bool,
    pid: int,
    dev: string)

  /** The request a driver means to make: unset optional fields are absent. */
  function Intended(d: Parent, pid: int, lib: NetLib): Invocation
  {
    Invocation(
      MTU(d),
      d.disableHostLoopback,
      if d.ipnet.Some? then Some(lib.ipNetString(d.ipnet.value)) else None,
      if d.apiSocketPath != "" then Some(d.apiSocketPath) else None,
      d.createSandbox,
      pid,
      TapName)
  }

  /** Consumes a bare switch when it comes next. */
  function TakeSwitch(m: seq<string>, name: string): (bool, seq<string>)
  {
    if |m| > 0 && m[0] == name then (true, m[1..]) else (false, m)
  }

  /** Consumes a switch and its value when the switch comes next. */
  function TakeValued(m: seq<string>, name: string): (Option<string>, seq<string>)
  {
    if |m| > 1 && m[0] == name then (Some(m[1]), m[2..]) else (None, m)
  }

  /** The optional switches a command line carries. */
  datatype OptionalFields = OptionalFields(
    disableHostLoopback: bool,
    cidr: Option<string>,
    apiSocket: Option<string>,
    createSandbox: bool)

  /** Reads the optional section: each switch at most once, in the fixed order, and nothing else. */
  function ParseOptional(m: seq<string>): Option<OptionalFields>
  {
    var (hostLoopback, m1) := TakeSwitch(m, DisableHostLoopbackOption);
    var (cidr, m2) := TakeValued(m1, CIDROption);
    var (apiSocket, m3) := TakeValued(m2, APISocketOption);
    var (sandbox, m4) := TakeSwitch(m3, CreateSandboxOption);
    if m4 != [] then None else Some(OptionalFields(hostLoopback, cidr, apiSocket, sandbox))
  }

  /** Reads a command line of the shape above back into the request it makes. */
  function ParseHelperArgs(args: seq<string>): Option<Invocation>
  {
    if |args| < 4 || args[0] != MTUOption then None
    else
      var mtu := ParseInt(args[1]);
      var pid := ParseInt(args[|args| - 2]);
      var optional := ParseOptional(args[2..|args| - 2]);
      if mtu.None? || pid.None? || optional.None? then None
      else
        var o := optional.value;
        Some(Invocation(mtu.value, o.disableHostLoopback, o.cidr, o.apiSocket, o.createSandbox, pid.value, args[|args| - 1]))
  }

  /**
   * The command line says exactly what the driver is configured for: reading
   * it back recovers the MTU, each optional switch (with its value) precisely
   * when its field is set, the pid and the device name.
   */
  lemma HelperArgsRoundTrip(d: Parent, pid: int, lib: NetLib)
    ensures ParseHelperArgs(HelperArgs(d, pid, lib)) == Some(Intended(d, pid, lib))
  {
  }
}
