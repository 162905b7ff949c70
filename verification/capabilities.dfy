/**
 * Capability detection: which optional command-line switches the installed
 * slirp4netns helper supports, read off its `--help` output.
 */
module Capabilities {
  import opened Wrappers
  import opened Strings

  const CIDROption := "--cidr"
  const DisableHostLoopbackOption := "--disable-host-loopback"
  const APISocketOption := "--api-socket"
  const CreateSandboxOption := "--create-sandbox"

  /** One flag per optional switch of the helper. */
  datatype Features = Features(
    supportsCIDR: bool,
    supportsDisableHostLoopback: bool,
    supportsAPISocket: bool,
    supportsCreateSandbox: bool)

  /** The feature set that a given help text advertises. */
  function FeaturesOf(help: string): (f: Features)
    ensures f.supportsCIDR <==> Occurs(help, CIDROption)
    ensures f.supportsDisableHostLoopback <==> Occurs(help, DisableHostLoopbackOption)
    ensures f.supportsAPISocket <==> Occurs(help, APISocketOption)
    ensures f.supportsCreateSandbox <==> Occurs(help, CreateSandboxOption)
  {
    Features(
      Contains(help, CIDROption),
      Contains(help, DisableHostLoopbackOption),
      Contains(help, APISocketOption),
      Contains(help, CreateSandboxOption))
  }

  /**
   * What running `<binary> --help` gave: its combined stdout/stderr, and the
   * error `CombinedOutput` returned (an exit status or an exec failure), if any.
   */
  datatype HelpRun = HelpRun(output: string, failure: Option<string>)

  datatype DetectError =
    | EmptyBinary
    | NotInstalled(binary: string, cause: string)
    | HelpFailed(realBinary: string, output: string, cause: string)

  /** An external step detection attempts, in the order attempted. */
  datatype Probe = LookPath(binary: string) | RunHelp(realBinary: string)

  datatype Detection = Detection(result: Result<Features, DetectError>, probes: seq<Probe>)

  /**
   * `DetectFeatures`. The search-path lookup and the help invocation are
   * parameters: `lookPath` resolves a name to a path or returns its error,
   * `runHelp` runs a resolved path with `--help`.
   */
  function DetectFeatures(binary: string, lookPath: string -> Result<string, string>, runHelp: string -> HelpRun): (d: Detection)
    // an empty name fails before anything external is touched
    ensures binary == "" ==> d == Detection(Failure(EmptyBinary), [])
    // a failed lookup is reported as not installed, wrapping the lookup's error, and the help is never run
    ensures binary != "" && lookPath(binary).Failure? ==>
      d == Detection(Failure(NotInstalled(binary, lookPath(binary).error)), [LookPath(binary)])
    // otherwise the help is run on the resolved path, right after the lookup
    ensures binary != "" && lookPath(binary).Success? ==>
      d.probes == [LookPath(binary), RunHelp(lookPath(binary).value)]
    // a failed help run carries its output and wrapped error, and yields no features
    ensures binary != "" && lookPath(binary).Success? && runHelp(lookPath(binary).value).failure.Some? ==>
      var run := runHelp(lookPath(binary).value);
      d.result == Failure(HelpFailed(lookPath(binary).value, run.output, run.failure.value))
    ensures d.result.Success? <==>
      binary != "" && lookPath(binary).Success? && runHelp(lookPath(binary).value).failure.None?
    // on success each flag says whether the help output mentions its switch
    ensures d.result.Success? ==>
      var out := runHelp(lookPath(binary).value).output;
      && (d.result.value.supportsCIDR <==> Occurs(out, CIDROption))
      && (d.result.value.supportsDisableHostLoopback <==> Occurs(out, DisableHostLoopbackOption))
      && (d.result.value.supportsAPISocket <==> Occurs(out, APISocketOption))
      && (d.result.value.supportsCreateSandbox <==> Occurs(out, CreateSandboxOption))
  {
    if binary == "" then
      Detection(Failure(EmptyBinary), [])
    else
      match lookPath(binary)
      case Failure(e) => Detection(Failure(NotInstalled(binary, e)), [LookPath(binary)])
      case Success(realBinary) =>
        var run := runHelp(realBinary);
        var probes := [LookPath(binary), RunHelp(realBinary)];
        match run.failure
        case Some(e) => Detection(Failure(HelpFailed(realBinary, run.output, e)), probes)
        case None => Detection(Success(FeaturesOf(run.output)), probes)
  }

  /** A help text that mentions exactly the chosen switches, one per line. */
  function Line(present: bool, option: string): string
  {
    if present then option + "\n" else ""
  }

  function HelpMentioning(f: Features): string
  {
    Line(f.supportsCIDR, CIDROption)
    + Line(f.supportsDisableHostLoopback, DisableHostLoopbackOption)
    + Line(f.supportsAPISocket, APISocketOption)
    + Line(f.supportsCreateSandbox, CreateSandboxOption)
  }

  /** None of the four switches occurs inside another. */
  lemma OptionsDistinct()
    ensures Occurs(CIDROption, CIDROption)
    ensures Occurs(DisableHostLoopbackOption, DisableHostLoopbackOption)
    ensures Occurs(APISocketOption, APISocketOption)
    ensures Occurs(CreateSandboxOption, CreateSandboxOption)
    ensures !Occurs(DisableHostLoopbackOption, CIDROption)
    ensures !Occurs(APISocketOption, CIDROption)
    ensures !Occurs(CreateSandboxOption, CIDROption)
    ensures !Occurs(DisableHostLoopbackOption, APISocketOption)
    ensures !Occurs(CreateSandboxOption, APISocketOption)
    ensures !Occurs(DisableHostLoopbackOption, CreateSandboxOption)
    ensures !Occurs(CIDROption, DisableHostLoopbackOption)
    ensures !Occurs(APISocketOption, DisableHostLoopbackOption)
    ensures !Occurs(CreateSandboxOption, DisableHostLoopbackOption)
    ensures !Occurs(CIDROption, APISocketOption)
    ensures !Occurs(CIDROption, CreateSandboxOption)
    ensures !Occurs(APISocketOption, CreateSandboxOption)
  {
    assert OccursAt(CIDROption, CIDROption, 0);
    assert OccursAt(DisableHostLoopbackOption, DisableHostLoopbackOption, 0);
    assert OccursAt(APISocketOption, APISocketOption, 0);
    assert OccursAt(CreateSandboxOption, CreateSandboxOption, 0);
    MissingCharRulesOut(DisableHostLoopbackOption, CIDROption, 'r');
    MissingCharRulesOut(APISocketOption, CIDROption, 'r');
    MissingCharRulesOut(CreateSandboxOption, CIDROption, 'i');
    MissingCharRulesOut(CreateSandboxOption, APISocketOption, 'i');
    MissingCharRulesOut(DisableHostLoopbackOption, CreateSandboxOption, 'r');
    // "pi" occurs in --api-socket, but the only 'p' of --disable-host-loopback is followed by 'b'
    assert OccursAt(APISocketOption, "pi", 3);
    var s := DisableHostLoopbackOption;
    assert forall i :: 0 <= i < |s| && s[i] == 'p' ==> i == 18;
    forall i | 0 <= i && i + 2 <= |s|
      ensures !OccursAt(s, "pi", i)
    {
      if s[i] == 'p' {
        assert s[i..i + 2][1] == s[19] == 'b';
      } else {
        assert s[i..i + 2][0] != 'p';
      }
    }
    assert !Occurs(s, "pi");
    if Occurs(s, APISocketOption) {
      OccursTransitive(s, APISocketOption, "pi");
    }
  }

  lemma LineMentions(present: bool, option: string, p: string)
    requires '\n' !in p && |p| > 0
    ensures Occurs(Line(present, option), p) <==> present && Occurs(option, p)
  {
    if present {
      OccursInSeparatedJoin(option, "\n", p, '\n');
    }
  }

  /** A pattern without line breaks occurs in the generated help text exactly when it occurs in a listed switch. */
  lemma HelpMentions(f: Features, p: string)
    requires '\n' !in p && |p| > 0
    ensures Occurs(HelpMentioning(f), p) <==>
      || (f.supportsCIDR && Occurs(CIDROption, p))
      || (f.supportsDisableHostLoopback && Occurs(DisableHostLoopbackOption, p))
      || (f.supportsAPISocket && Occurs(APISocketOption, p))
      || (f.supportsCreateSandbox && Occurs(CreateSandboxOption, p))
  {
    var l1 := Line(f.supportsCIDR, CIDROption);
    var l2 := Line(f.supportsDisableHostLoopback, DisableHostLoopbackOption);
    var l3 := Line(f.supportsAPISocket, APISocketOption);
    var l4 := Line(f.supportsCreateSandbox, CreateSandboxOption);
    OccursInSeparatedJoin(l1, l2, p, '\n');
    OccursInSeparatedJoin(l1 + l2, l3, p, '\n');
    OccursInSeparatedJoin(l1 + l2 + l3, l4, p, '\n');
    LineMentions(f.supportsCIDR, CIDROption, p);
    LineMentions(f.supportsDisableHostLoopback, DisableHostLoopbackOption, p);
    LineMentions(f.supportsAPISocket, APISocketOption, p);
    LineMentions(f.supportsCreateSandbox, CreateSandboxOption, p);
  }

  /**
   * The four flags are independent: every combination is the result of some
   * help text, namely one that lists exactly the chosen switches.
   */
  lemma FlagsIndependent(f: Features)
    ensures FeaturesOf(HelpMentioning(f)) == f
  {
    OptionsDistinct();
    HelpMentions(f, CIDROption);
    HelpMentions(f, DisableHostLoopbackOption);
    HelpMentions(f, APISocketOption);
    HelpMentions(f, CreateSandboxOption);
  }
}
