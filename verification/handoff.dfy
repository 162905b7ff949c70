/** Properties that span the detector, the parent driver and the child driver. */
module Handoff {
  import opened Wrappers
  import opened Strings
  import opened Net
  import opened Capabilities
  import opened Driver
  import opened HelperCommand
  import opened Configure
  import opened Child

  /**
   * The caller's side of the version contract: a driver only asks for the
   * optional switches the detected helper supports.
   */
  predicate Gated(d: Parent, f: Features)
  {
    && (d.disableHostLoopback ==> f.supportsDisableHostLoopback)
    && (d.ipnet.Some? ==> f.supportsCIDR)
    && (d.apiSocketPath != "" ==> f.supportsAPISocket)
    && (d.createSandbox ==> f.supportsCreateSandbox)
  }

  /**
   * When the driver is gated by the features read from a help text, every
   * optional switch on the helper's command line is one that help text
   * mentions.
   */
  lemma GatedSwitchesAdvertised(help: string, d: Parent, pid: int, lib: NetLib)
    requires Gated(d, FeaturesOf(help))
    ensures ParseHelperArgs(HelperArgs(d, pid, lib)).Some?
    ensures var inv := ParseHelperArgs(HelperArgs(d, pid, lib)).value;
      && (inv.disableHostLoopback ==> Occurs(help, DisableHostLoopbackOption))
      && (inv.cidr.Some? ==> Occurs(help, CIDROption))
      && (inv.apiSocket.Some? ==> Occurs(help, APISocketOption))
      && (inv.createSandbox ==> Occurs(help, CreateSandboxOption))
  {
    HelperArgsRoundTrip(d, pid, lib);
  }

  /** Whatever message the parent produces, the child accepts it and uses the tap the parent prepared. */
  lemma ChildAcceptsParentMessage(d: Parent, childPID: int, stateDir: string, lib: NetLib, tap: Status, start: Status)
    requires ConfigureNetwork(d, childPID, stateDir, lib, tap, start).msg.Some?
    ensures ConfigureNetworkChild(ConfigureNetwork(d, childPID, stateDir, lib, tap, start).msg.value) == Success(TapName)
  {
  }
}
