/** The facts `action :install` derives from the options and hands to the
    resources it declares: the start command of the service unit, which of
    the two unit kinds is rendered, and whether the textfile directory is
    created. Property validation runs first, when the properties are set. */
module Install {
  import opened Wrappers
  import opened NodeConfig
  import opened Collectors
  import opened Options

  /** Where the resource links the node_exporter binary. */
  const Binary: string := "/usr/local/sbin/node_exporter"

  /** The command line a unit runs: the binary, one space, the options. */
  function StartCommand(options: string): (cmd: string)
    ensures |cmd| == |Binary| + 1 + |options|
    ensures cmd[..|Binary|] == Binary && cmd[|Binary|] == ' '
    ensures cmd[|Binary| + 1..] == options
  {
    Binary + " " + options
  }

  /** Recovers the options from a start command. */
  function OptionsOf(cmd: string): Option<string> {
    var prefix := Binary + " ";
    if |prefix| <= |cmd| && cmd[..|prefix|] == prefix then Some(cmd[|prefix|..]) else None
  }

  /** The start command determines the options it was built from. */
  lemma StartCommandRoundTrip(options: string)
    ensures OptionsOf(StartCommand(options)) == Some(options)
  {
    var prefix := Binary + " ";
    var cmd := StartCommand(options);
    assert cmd[..|prefix|] == prefix;
    assert cmd[|prefix|..] == options;
  }

  /** The two service definitions the resource declares, each behind its own
      `only_if` guard: a systemd unit's `exec_start`, or the `cmd` variable of
      the upstart job template. */
  datatype ServiceUnit = SystemdUnit(execStart: string) | UpstartJob(cmd: string)

  function CommandOf(u: ServiceUnit): string {
    match u
    case SystemdUnit(execStart) => execStart
    case UpstartJob(cmd) => cmd
  }

  /** The units whose guard passes, in declaration order. */
  function UnitsFor(initPackage: string, options: string): (units: seq<ServiceUnit>)
    ensures |units| == 1
    ensures units[0].SystemdUnit? <==> initPackage == "systemd"
    ensures OptionsOf(CommandOf(units[0])) == Some(options)
  {
    StartCommandRoundTrip(options);
    (if initPackage == "systemd" then [SystemdUnit(StartCommand(options))] else [])
    + (if initPackage != "systemd" then [UpstartJob(StartCommand(options))] else [])
  }

  /** Both unit kinds run the very same command, whatever non-systemd init
      package selects the upstart job. */
  lemma SameCommandInBothUnits(options: string, other: string)
    requires other != "systemd"
    ensures CommandOf(UnitsFor("systemd", options)[0]) == CommandOf(UnitsFor(other, options)[0])
  {
  }

  /** The directory the resource creates for the textfile collector: only
      when the property is set and not the empty string. */
  function TextfileDirectoryToCreate(c: Config): (dir: Option<string>)
    ensures dir.Some? <==> c.collectorTextfileDirectory.Some? && c.collectorTextfileDirectory.value != ""
    ensures dir.Some? ==> dir == c.collectorTextfileDirectory
  {
    match c.collectorTextfileDirectory
    case None => None
    case Some(path) => if path != "" then Some(path) else None
  }

  /** Creating the directory is stricter than emitting the flag: a directory
      that is created is always passed to the daemon, but the empty string
      emits the flag without creating anything. */
  lemma TextfileDirectoryStricterThanFlag(c: Config)
    ensures TextfileDirectoryToCreate(c).Some? ==>
              Segment(c, TextfileDirectory) == ["--collector.textfile.directory=" + TextfileDirectoryToCreate(c).value]
    ensures c.collectorTextfileDirectory == Some("") ==>
              && Segment(c, TextfileDirectory) == ["--collector.textfile.directory="]
              && TextfileDirectoryToCreate(c).None?
  {
    assert FlagName(TextfileDirectory) + "=" == "--collector.textfile.directory=";
    if c.collectorTextfileDirectory.Some? {
      var path := c.collectorTextfileDirectory.value;
      assert FlagName(TextfileDirectory) + "=" + path == "--collector.textfile.directory=" + path;
      if path == "" {
        assert "--collector.textfile.directory=" + path == "--collector.textfile.directory=";
      }
    }
  }

  /** Both collector lists satisfy their callback (an unset list is never checked). */
  ghost predicate CollectorsValid(c: Config) {
    && (c.collectorsEnabled.None? || AllCollectors(c.collectorsEnabled.value))
    && (c.collectorsDisabled.None? || AllCollectors(c.collectorsDisabled.value))
  }

  /** Runs both property callbacks, the enabled list first. */
  function ValidateConfig(c: Config): (r: Result<Config, ValidationError>)
    ensures r.Success? <==> CollectorsValid(c)
    ensures r.Success? ==> r.value == c
    ensures r.Failure? ==> r.error.callback == ShouldBeACollector
    ensures r.Failure? ==> r.error.property == "collectors_enabled" || r.error.property == "collectors_disabled"
    ensures r.Failure? ==>
              (r.error.property == "collectors_enabled" <==>
                 c.collectorsEnabled.Some? && !AllCollectors(c.collectorsEnabled.value))
  {
    match ValidateProperty("collectors_enabled", c.collectorsEnabled)
    case Failure(e) => Failure(e)
    case Success(_) =>
      match ValidateProperty("collectors_disabled", c.collectorsDisabled)
      case Failure(e) => Failure(e)
      case Success(_) => Success(c)
  }

  /** Why an install does not get to render anything. */
  datatype InstallError =
    | Invalid(error: ValidationError)  // a property callback rejected a list
    | NilCollectorList(property: string)  // `.map` called on a list left nil

  /** What the install action renders. */
  datatype InstallPlan = InstallPlan(
    options: string,
    units: seq<ServiceUnit>,
    textfileDirectory: Option<string>)

  /** The install action, from property validation to the facts it hands to
      the unit and directory resources. */
  function Install(c: Config, initPackage: string): (r: Result<InstallPlan, InstallError>)
    ensures r.Success? <==> CollectorsValid(c) && ListsPresent(c)
    ensures r.Failure? && !CollectorsValid(c) ==> r.error.Invalid?
    ensures r.Failure? && CollectorsValid(c) ==>
              r.error == NilCollectorList(if c.collectorsEnabled.None? then "collectors_enabled" else "collectors_disabled")
    ensures r.Success? ==>
              && r.value.options == Render(c)
              && |r.value.units| == 1
              && (r.value.units[0].SystemdUnit? <==> initPackage == "systemd")
              && OptionsOf(CommandOf(r.value.units[0])) == Some(r.value.options)
              && r.value.textfileDirectory == TextfileDirectoryToCreate(c)
  {
    match ValidateConfig(c)
    case Failure(e) => Failure(Invalid(e))
    case Success(_) =>
      if c.collectorsEnabled.None? then Failure(NilCollectorList("collectors_enabled"))
      else if c.collectorsDisabled.None? then Failure(NilCollectorList("collectors_disabled"))
      else
        var options := Render(c);
        Success(InstallPlan(options, UnitsFor(initPackage, options), TextfileDirectoryToCreate(c)))
  }
}
