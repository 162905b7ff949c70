/**
 * `parentDriver.ConfigureNetwork`: prepare the tap device, start slirp4netns
 * for the child process, and describe the resulting network to the child.
 */
module Configure {
  import opened Wrappers
  import opened Net
  import opened Driver
  import opened HelperCommand
  import opened Addressing

  /** `common.NetworkMessage`: everything the parent tells the child about its network. */
  datatype NetworkMessage = NetworkMessage(
    dev: string,
    mtu: int,
    ip: string,
    netmask: int,
    gateway: string,
    dns: string)

  /**
   * A registered cleanup action. The driver registers one kind: stop the
   * helper by cancelling its context and then waiting for it to exit.
   */
  datatype Cleanup = StopHelper

  /** A step a cleanup action takes; the wait records how the helper's exit went. */
  datatype CleanupStep = CancelContext | WaitForExit(outcome: Status)

  datatype CleanupRun = CleanupRun(steps: seq<CleanupStep>, err: Option<string>)

  /**
   * Running one cleanup action. `waited` is how the wait for the helper
   * ended; the outcome is only logged, so the action reports no error even
   * when the wait failed.
   */
  function RunCleanup(c: Cleanup, waited: Status): (run: CleanupRun)
    ensures run.err == None
    ensures |run.steps| == 2 && run.steps[0] == CancelContext && run.steps[1].WaitForExit?
    ensures run.steps[1].outcome == waited
  {
    match c
    case StopHelper => CleanupRun([CancelContext, WaitForExit(waited)], None)
  }

  /**
   * Running a returned cleanup list: the actions in registration order,
   * `waits[k]` being how the wait of the k-th action ended. The first error
   * reported, if any, is the result.
   */
  function RunCleanups(cs: seq<Cleanup>, waits: seq<Status>): (run: CleanupRun)
    requires |waits| == |cs|
    // each action cancels and then waits, in the order the actions were registered
    ensures |run.steps| == 2 * |cs|
    ensures forall k :: 0 <= k < |cs| ==>
      run.steps[2 * k] == CancelContext && run.steps[2 * k + 1] == WaitForExit(waits[k])
    // no wait failure escapes
    ensures run.err == None
    decreases |cs|
  {
    if cs == [] then CleanupRun([], None)
    else
      var first := RunCleanup(cs[0], waits[0]);
      var rest := RunCleanups(cs[1..], waits[1..]);
      var run := CleanupRun(first.steps + rest.steps, if first.err.Some? then first.err else rest.err);
      assert forall k :: 1 <= k < |cs| ==> run.steps[2 * k] == rest.steps[2 * (k - 1)];
      run
  }

  /** An external action `ConfigureNetwork` takes, in the order taken. */
  datatype Effect =
    | PrepareTap(pid: int, dev: string)
    | StartHelper(binary: string, args: seq<string>)

  datatype ConfigureError =
    | TapFailed(dev: string, cause: string)
    | StartFailed(binary: string, args: seq<string>, cause: string)
    | AddressFailed(cause: string)

  /** The three results of `ConfigureNetwork`, plus the external actions it took. */
  datatype Configured = Configured(
    msg: Option<NetworkMessage>,
    cleanups: seq<Cleanup>,
    err: Option<ConfigureError>,
    effects: seq<Effect>)

  /**
   * `ConfigureNetwork` for child process `childPID`. `tap` is how
   * `PrepareTap` ended and `start` how starting the helper ended. The state
   * directory argument is accepted and, as in the driver, not used.
   */
  function ConfigureNetwork(d: Parent, childPID: int, stateDir: string, lib: NetLib, tap: Status, start: Status): (c: Configured)
    // exactly one of message and error
    ensures c.msg.Some? <==> c.err.None?
    // the tap is always prepared first, for the child, under the fixed name
    ensures |c.effects| > 0 && c.effects[0] == PrepareTap(childPID, TapName)
    // a tap failure returns no cleanup and starts nothing
    ensures tap.Failed? ==>
      c.cleanups == [] && c.effects == [PrepareTap(childPID, TapName)] && c.err == Some(TapFailed(TapName, tap.cause))
    // past the tap, the helper is started with its command line, and its stop action is owed on every later path
    ensures tap.Ok? ==>
      && c.cleanups == [StopHelper]
      && c.effects == [PrepareTap(childPID, TapName), StartHelper(d.binary, HelperArgs(d, childPID, lib))]
    ensures tap.Ok? && start.Failed? ==>
      c.err == Some(StartFailed(d.binary, HelperArgs(d, childPID, lib), start.cause))
    ensures tap.Ok? && start.Ok? && PlanAddresses(d.ipnet, lib).Failure? ==>
      c.err == Some(AddressFailed(PlanAddresses(d.ipnet, lib).error))
    // success needs all three steps to succeed
    ensures c.err.None? <==> tap.Ok? && start.Ok? && PlanAddresses(d.ipnet, lib).Success?
    // the message names the tap, carries the effective MTU and the address plan
    ensures c.msg.Some? ==>
      var m := c.msg.value;
      var plan := PlanAddresses(d.ipnet, lib).value;
      && m.dev == TapName && m.dev != ""
      && m.mtu == MTU(d) && m.mtu > 0
      && m.ip == plan.ip && m.netmask == plan.netmask && m.gateway == plan.gateway && m.dns == plan.dns
  {
    var prepare := PrepareTap(childPID, TapName);
    if tap.Failed? then
      Configured(None, [], Some(TapFailed(TapName, tap.cause)), [prepare])
    else
      var args := HelperArgs(d, childPID, lib);
      var effects := [prepare, StartHelper(d.binary, args)];
      // the stop action is registered before the start is attempted
      var cleanups := [StopHelper];
      if start.Failed? then
        Configured(None, cleanups, Some(StartFailed(d.binary, args, start.cause)), effects)
      else
        match PlanAddresses(d.ipnet, lib)
        case Failure(e) => Configured(None, cleanups, Some(AddressFailed(e)), effects)
        case Success(plan) =>
          var msg := NetworkMessage(TapName, d.mtu, plan.ip, plan.netmask, plan.gateway, plan.dns);
          Configured(Some(msg), cleanups, None, effects)
  }

  /**
   * What tearing down after `ConfigureNetwork` does on each path: nothing
   * after a tap failure; after a start failure, an address failure or
   * success, one cancel of the helper followed by one wait. It never fails.
   */
  lemma TeardownByPath(
    d: Parent, childPID: int, stateDir: string, lib: NetLib, tap: Status, start: Status, waits: seq<Status>)
    requires |waits| == |ConfigureNetwork(d, childPID, stateDir, lib, tap, start).cleanups|
    ensures var run := RunCleanups(ConfigureNetwork(d, childPID, stateDir, lib, tap, start).cleanups, waits);
      && run.err == None
      && (tap.Failed? ==> run.steps == [])
      && (tap.Ok? ==> run.steps == [CancelContext, WaitForExit(waits[0])])
  {
  }
}
