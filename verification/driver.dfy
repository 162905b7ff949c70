/** Construction of the parent-side driver and its effective MTU. */
module Driver {
  import opened Wrappers
  import opened Net

  /** The MTU used when the caller passes 0. */
  const DefaultMTU := 65520

  /** The name of the tap device the driver always asks for. */
  const TapName := "tap0"

  /** The configuration fields of `parentDriver`. */
  datatype ParentDriver = ParentDriver(
    binary: string,
    mtu: int,
    ipnet: Option<IPNet>,
    disableHostLoopback: bool,
    apiSocketPath: string,
    createSandbox: bool)

  /** What every constructed driver satisfies: a named binary and a final, positive MTU. */
  predicate Valid(d: ParentDriver)
  {
    d.binary != "" && d.mtu > 0
  }

  /** A driver as `NewParentDriver` hands it out. */
  type Parent = d: ParentDriver | Valid(d)
    witness ParentDriver("slirp4netns", DefaultMTU, None, false, "", false)

  /** The two programming errors `NewParentDriver` panics on. */
  datatype ConfigError = EmptyBinary | NegativeMTU

  /** `NewParentDriver`, with its panics returned as failures. */
  function NewParentDriver(
    binary: string, mtu: int, ipnet: Option<IPNet>,
    disableHostLoopback: bool, apiSocketPath: string, createSandbox: bool
  ): (r: Result<Parent, ConfigError>)
    // the binary is checked first, then the MTU
    ensures binary == "" ==> r == Failure(EmptyBinary)
    ensures binary != "" && mtu < 0 ==> r == Failure(NegativeMTU)
    ensures r.Success? <==> binary != "" && mtu >= 0
    // 0 selects the default, a positive value is kept
    ensures r.Success? && mtu == 0 ==> r.value.mtu == DefaultMTU
    ensures r.Success? && mtu > 0 ==> r.value.mtu == mtu
    // every other field is stored as given
    ensures r.Success? ==>
      && r.value.binary == binary
      && r.value.ipnet == ipnet
      && r.value.disableHostLoopback == disableHostLoopback
      && r.value.apiSocketPath == apiSocketPath
      && r.value.createSandbox == createSandbox
  {
    if binary == "" then Failure(EmptyBinary)
    else if mtu < 0 then Failure(NegativeMTU)
    else
      var effective := if mtu == 0 then DefaultMTU else mtu;
      Success(ParentDriver(binary, effective, ipnet, disableHostLoopback, apiSocketPath, createSandbox))
  }

  /** `parentDriver.MTU`: always a usable, positive value. */
  function MTU(d: Parent): (m: int)
    ensures m > 0
  {
    d.mtu
  }

  /**
   * Construction is a normalisation: rebuilding a driver from its own fields
   * gives back the same driver.
   */
  lemma ConstructionIdempotent(d: Parent)
    ensures NewParentDriver(d.binary, d.mtu, d.ipnet, d.disableHostLoopback, d.apiSocketPath, d.createSandbox) == Success(d)
  {
  }
}
