# slirp4netns network driver — Dafny model

This project models rootlesskit's slirp4netns network driver
(`pkg/network/slirp4netns/slirp4netns.go`). The driver gives a rootless
container user-mode networking. The parent side does four things:

- It detects which optional switches the installed `slirp4netns` helper
  supports, by reading its `--help` output.
- It validates its configuration and settles the MTU.
- It starts the helper for the child process with a fixed-shape command
  line, and returns a cleanup action that stops the helper.
- It tells the child its network: the tap device, the MTU and the
  guest/gateway/DNS addresses.

The child side checks that it was given a device name.

Every operation is a pure function. Process and device I/O become inputs:

- the search-path lookup and the `--help` run are function parameters;
- the outcomes of `PrepareTap` and `cmd.Start` are `Status` values.

The external steps a call attempts are returned as a trace (`probes`,
`effects`), so their order and absence can be stated.

Modules:

- `Wrappers`: `Option`, `Result`, `Status`.
- `Strings`: the containment spec (`Occurs`), the scanning `Contains`, and lemmas about occurrences in joined text.
- `Decimal`: `strconv.Itoa` and a parser that reads its output back.
- `Capabilities`: `Features`, `FeaturesOf`, `DetectFeatures`.
- `Net`: the `net` and `iputils` routines the driver calls. Their code is not part of this model, so they are function fields of a `NetLib` record.
- `Driver`: `NewParentDriver`, `MTU`. `Parent` is the subset type of constructed drivers.
- `HelperCommand`: the helper's argument list and a parser for it.
- `Addressing`: the address plan, plus a reference IPv4 instance of `NetLib`.
- `Configure`: `NetworkMessage`, `ConfigureNetwork`, the cleanup action and running a returned cleanup list.
- `Child`: `ConfigureNetworkChild`.
- `Handoff`: properties that span detector, parent and child.

Four facts of the code the model keeps:

- The optional switches are passed in the order `--disable-host-loopback`,
  `--cidr`, `--api-socket`, `--create-sandbox` (slirp4netns.go:106-117).
- The stop-helper action is registered before `cmd.Start`, so a start
  failure still returns exactly one cleanup action (slirp4netns.go:122-129).
- The tap-failure path always returns an empty cleanup list. No
  device-preparation cleanup is ever registered (slirp4netns.go:101-102).
- An `AddIPInt` error is returned as is. Whether an overflow wraps is up to
  `iputils`, which is not part of this model (slirp4netns.go:138-140).

## Model

| member | source | states |
|---|---|---|
| `Strings.Contains` | pkg/network/slirp4netns/slirp4netns.go:50-53 | scanning for a pattern answers true exactly when the pattern occurs somewhere in the text |
| `Capabilities.FeaturesOf` | pkg/network/slirp4netns/slirp4netns.go:49-54 | each of the four flags is true exactly when the help text contains its own switch (`--cidr`, `--disable-host-loopback`, `--api-socket`, `--create-sandbox`) |
| `Capabilities.OptionsDistinct` | pkg/network/slirp4netns/slirp4netns.go:50-53 | none of the four switch names occurs inside another, so no switch's presence implies another's |
| `Capabilities.FlagsIndependent` | pkg/network/slirp4netns/slirp4netns.go:49-54 | the flags are independent: every one of the 16 combinations is produced by some help text, one listing exactly the chosen switches |
| `Capabilities.DetectFeatures` | pkg/network/slirp4netns/slirp4netns.go:32-56 | an empty binary fails before any lookup; a failed lookup is NotInstalled carrying the lookup's error, and the help is never run; a failed help run fails with its output and its error; otherwise the features of the output are returned; no error path yields features |
| `Decimal.Itoa` | pkg/network/slirp4netns/slirp4netns.go:105 | the exact `strconv.Itoa` token: '-' exactly for negative numbers, then digits with no leading zero (a leading '0' only in the one-character token "0"), and it parses back to the same integer |
| `Decimal.ItoaInjective` | pkg/network/slirp4netns/slirp4netns.go:118 | distinct integers render as distinct tokens, so the MTU and pid on the command line determine the values |
| `Driver.NewParentDriver` | pkg/network/slirp4netns/slirp4netns.go:65-83 | an empty binary is rejected first, then a negative MTU; otherwise construction succeeds, MTU 0 becomes 65520, a positive MTU is kept and every other field is stored unchanged |
| `Driver.MTU` | pkg/network/slirp4netns/slirp4netns.go:94-96 | the MTU of any constructed driver is positive |
| `Driver.ConstructionIdempotent` | pkg/network/slirp4netns/slirp4netns.go:66-82 | building a driver from a constructed driver's own fields succeeds and gives the same driver |
| `HelperCommand.HelperArgs` | pkg/network/slirp4netns/slirp4netns.go:105-118 | the list starts with `--mtu` and the effective MTU as its exact `strconv.Itoa` token, ends with the pid as its exact `strconv.Itoa` token and `tap0`, and has 4 tokens plus one per bare switch and two per valued switch |
| `HelperCommand.HelperArgsRoundTrip` | pkg/network/slirp4netns/slirp4netns.go:105-118 | reading the list back in the fixed switch order recovers the MTU, each optional switch (with its value) exactly when its field is set, the pid and the device |
| `Addressing.PlanAddresses` | pkg/network/slirp4netns/slirp4netns.go:136-159 | without a network the plan is 10.0.2.100/24, gateway 10.0.2.2, DNS 10.0.2.3; with one it is base+100, base+2, base+3 and the mask's one-count, and the first failing addition (in that order) is the error |
| `Addressing.DefaultsAreSlirpNetwork` | pkg/network/slirp4netns/slirp4netns.go:154-158 | the built-in plan equals the configured-network plan of 10.0.2.0/24 under plain IPv4 arithmetic and dotted-decimal text |
| `Addressing.ReferencePlanFitsOrFails` | pkg/network/slirp4netns/slirp4netns.go:138-141 | with the reference IPv4 arithmetic, which is written to fail on overflow, a configured network yields a plan exactly when base+100 fits in 32 bits; the no-wrap behaviour belongs to that reference arithmetic, not to the driver, which passes on whatever `AddIPInt` returns |
| `Configure.ConfigureNetwork` | pkg/network/slirp4netns/slirp4netns.go:98-161 | a tap failure returns no cleanup and starts nothing; after the tap the helper is started with `HelperArgs` and exactly one stop action is returned on every path, start failure included; success needs tap, start and plan to succeed; the message names `tap0`, carries the positive effective MTU and the plan |
| `Configure.RunCleanup` | pkg/network/slirp4netns/slirp4netns.go:122-128 | stopping the helper cancels its context, then waits, records the wait's outcome, and reports no error even when the wait failed |
| `Configure.RunCleanups` | pkg/network/slirp4netns/slirp4netns.go:122-130 | running a returned list takes, per registered action and in registration order, a cancel then a wait with that action's outcome, and reports no error |
| `Configure.TeardownByPath` | pkg/network/slirp4netns/slirp4netns.go:100-130 | tearing down after `ConfigureNetwork` takes no step after a tap failure, and exactly one cancel then one wait after a start failure, an address failure or success, never reporting an error |
| `Child.ConfigureNetworkChild` | pkg/network/slirp4netns/slirp4netns.go:170-179 | the child fails exactly when the device name is empty, and otherwise returns the name unchanged |
| `Handoff.ChildAcceptsParentMessage` | pkg/network/slirp4netns/slirp4netns.go:170-178 | every message the parent produces passes the child's check and names `tap0` |
| `Handoff.GatedSwitchesAdvertised` | pkg/network/slirp4netns/slirp4netns.go:58-64 | if the driver only enables switches its detected features allow, every optional switch on the helper's command line appears in the help text |

## Left out

- Process and OS I/O are not modelled: `exec.LookPath`, `CombinedOutput`, `os.Environ`, `exec.CommandContext`, `cmd.Start`, `cmd.Wait`, `Pdeathsig` and context cancellation. Their outcomes are inputs, and their order is recorded as effect traces.
- `parentutils.PrepareTap` is not part of this model. Its outcome is a `Status` input.
- `iputils.AddIPInt`, `net.IP.String`, `net.IPNet.String` and `net.IPMask.Size` are not part of this model. They are the abstract `NetLib` fields. `Addressing.IPv4Reference` is a reference instance used by two lemmas: `Addressing.DefaultsAreSlirpNetwork` relates the defaults to the configured branch, and `Addressing.ReferencePlanFitsOrFails` shows that branch failing rather than wrapping. Its `AddIPv4` was written to fail on overflow and on non-IPv4 addresses, so the no-wrap statement is a property of the reference arithmetic, not of the driver or of `iputils`.
- `common.Seq` is not part of this model. The cleanup result is the list of registered actions. `Configure.RunCleanups` assumes the actions run in registration order and the first error is kept; since the only action never reports an error, that choice of error does not affect any proved statement.
- Logging (`logrus`) is left out. It has no effect on results.
- The panics in `NewParentDriver` are returned as `Failure(EmptyBinary)` / `Failure(NegativeMTU)`, since Dafny has no panics.
- Error messages are reduced to their kind plus the data they carry (binary, output, command line, and the wrapped Go error's text as `cause`). The `errors.Wrapf` formatting around them is left out.
- Go's `int` is 64 bits wide; the model's MTU and pid are unbounded integers. The driver does no arithmetic on them, so no wrap-around can arise.
- `NewChildDriver` is left out, because it only allocates an empty struct. The unused `stateDir` argument of `ConfigureNetwork` is accepted and ignored.
- The helper's `--help` output is a Go byte string compared bytewise by `strings.Contains`; the model uses Dafny strings of characters. The four switch names are ASCII, so the containment results agree.
- Two Go pointers become plain values. `ConfigureNetworkChild` takes a `*common.NetworkMessage`, so a nil message would panic; the model takes a message value, so that case does not arise. `NewParentDriver` keeps the caller's `*net.IPNet`, so a later change to it by the caller would change the `--cidr` text and the address plan; the model stores a copy.
