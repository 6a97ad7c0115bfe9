/** The node_exporter resource's properties, the slice of Ruby semantics the
    option builder relies on, and the table of optional flags. */
module NodeConfig {
  import opened Wrappers
  import Decimal

  /** The `[String, Integer]` property type of two NTP settings. */
  datatype StrOrInt = Str(s: string) | Int(i: int)

  /** The resource's properties, already coerced to their declared types.
      The two collector lists have no default and may be left nil. */
  datatype Config = Config(
    webListenAddress: string,
    webTelemetryPath: string,
    logLevel: string,
    logFormat: string,
    collectorsEnabled: Option<seq<string>>,
    collectorsDisabled: Option<seq<string>>,
    collectorMegacliCommand: Option<string>,
    collectorNtpServer: Option<string>,
    collectorNtpProtocolVersion: Option<StrOrInt>,
    collectorNtpServerIsLocal: Option<bool>,
    collectorNtpIpTtl: Option<StrOrInt>,
    collectorNtpMaxDistance: Option<string>,
    collectorNtpLocalOffsetTolerance: Option<string>,
    pathProcfs: Option<string>,
    pathSysfs: Option<string>,
    collectorTextfileDirectory: Option<string>,
    collectorNetdevIgnoredDevices: Option<string>,
    collectorDiskstatsIgnoredDevices: Option<string>,
    collectorFilesystemIgnoredFsTypes: Option<string>,
    collectorFilesystemIgnoredMountPoints: Option<string>,
    customOptions: Option<string>)

  /** The four literal defaults, the given collector lists, and every optional
      property left unset. */
  function Defaults(enabled: seq<string>, disabled: seq<string>): (c: Config)
    ensures c.collectorsEnabled == Some(enabled) && c.collectorsDisabled == Some(disabled)
    ensures c.webListenAddress == ":9100" && c.webTelemetryPath == "/metrics"
    ensures c.logLevel == "info" && c.logFormat == "logger:stdout"
    ensures forall f :: Field(c, f) == Nil
  {
    Config(":9100", "/metrics", "info", "logger:stdout", Some(enabled), Some(disabled),
      None, None, None, None, None, None, None, None, None, None, None, None, None, None, None)
  }

  /** A Ruby value as an `if` modifier and `#{}` interpolation see it. */
  datatype RubyValue = Nil | RStr(s: string) | RInt(i: int) | RBool(b: bool)

  /** Ruby truthiness: only nil and false are false; "" and 0 are true. */
  predicate Truthy(v: RubyValue) {
    !(v.Nil? || v == RBool(false))
  }

  /** What `"#{v}"` produces. */
  function Interpolate(v: RubyValue): string {
    match v
    case Nil => ""
    case RStr(s) => s
    case RInt(i) => Decimal.IntToString(i)
    case RBool(b) => if b then "true" else "false"
  }

  function OfString(o: Option<string>): RubyValue {
    match o
    case None => Nil
    case Some(s) => RStr(s)
  }

  function OfStrOrInt(o: Option<StrOrInt>): RubyValue {
    match o
    case None => Nil
    case Some(Str(s)) => RStr(s)
    case Some(Int(i)) => RInt(i)
  }

  function OfBool(o: Option<bool>): RubyValue {
    match o
    case None => Nil
    case Some(b) => RBool(b)
  }

  /** The optional, independently guarded flags, one per property. */
  datatype Flag =
    | MegacliCommand
    | NtpServer
    | NtpProtocolVersion
    | NtpServerIsLocal
    | NtpIpTtl
    | NtpMaxDistance
    | NtpLocalOffsetTolerance
    | PathProcfs
    | PathSysfs
    | TextfileDirectory
    | NetdevIgnoredDevices
    | DiskstatsIgnoredDevices
    | FilesystemIgnoredFsTypes
    | FilesystemIgnoredMountPoints
    | CustomOptions

  /** The order in which the optional flags are appended. */
  const OptionalFlags: seq<Flag> := [
    MegacliCommand, NtpServer, NtpProtocolVersion, NtpServerIsLocal, NtpIpTtl,
    NtpMaxDistance, NtpLocalOffsetTolerance, PathProcfs, PathSysfs,
    TextfileDirectory, NetdevIgnoredDevices, DiskstatsIgnoredDevices,
    FilesystemIgnoredFsTypes, FilesystemIgnoredMountPoints, CustomOptions
  ]

  /** Where a flag sits in OptionalFlags. */
  function Position(f: Flag): (i: nat)
    ensures i < |OptionalFlags| && OptionalFlags[i] == f
  {
    match f
    case MegacliCommand => 0
    case NtpServer => 1
    case NtpProtocolVersion => 2
    case NtpServerIsLocal => 3
    case NtpIpTtl => 4
    case NtpMaxDistance => 5
    case NtpLocalOffsetTolerance => 6
    case PathProcfs => 7
    case PathSysfs => 8
    case TextfileDirectory => 9
    case NetdevIgnoredDevices => 10
    case DiskstatsIgnoredDevices => 11
    case FilesystemIgnoredFsTypes => 12
    case FilesystemIgnoredMountPoints => 13
    case CustomOptions => 14
  }

  /** Every flag occurs in OptionalFlags exactly once. */
  lemma OptionalFlagsDistinct()
    ensures forall i :: 0 <= i < |OptionalFlags| ==> Position(OptionalFlags[i]) == i
  {
  }

  /** How a flag's segment is shaped:
      Valued   `<name>=<value>`
      Quoted   `<name>='<value>'` (no escaping inside the quotes)
      Switch   `<name>` alone
      Verbatim `<value>` as given. */
  datatype Shape = Valued | Quoted | Switch | Verbatim

  function ShapeOf(f: Flag): Shape {
    match f
    case NtpServerIsLocal => Switch
    case NetdevIgnoredDevices => Quoted
    case DiskstatsIgnoredDevices => Quoted
    case FilesystemIgnoredFsTypes => Quoted
    case FilesystemIgnoredMountPoints => Quoted
    case CustomOptions => Verbatim
    case _ => Valued
  }

  /** The command-line name of a flag; the verbatim passthrough has none. */
  function FlagName(f: Flag): string {
    match f
    case MegacliCommand => "--collector.megacli.command"
    case NtpServer => "--collector.ntp.server"
    case NtpProtocolVersion => "--collector.ntp.protocol-version"
    case NtpServerIsLocal => "--collector.ntp.server-is-local"
    case NtpIpTtl => "--collector.ntp.ip-ttl"
    case NtpMaxDistance => "--collector.ntp.max-distance"
    case NtpLocalOffsetTolerance => "--collector.ntp.local-offset-tolerance"
    case PathProcfs => "--path.procfs"
    case PathSysfs => "--path.sysfs"
    case TextfileDirectory => "--collector.textfile.directory"
    case NetdevIgnoredDevices => "--collector.netdev.ignored-devices"
    case DiskstatsIgnoredDevices => "--collector.diskstats.ignored-devices"
    case FilesystemIgnoredFsTypes => "--collector.filesystem.ignored-fs-types"
    case FilesystemIgnoredMountPoints => "--collector.filesystem.ignored-mount-points"
    case CustomOptions => ""
  }

  /** The property that guards a flag, as a Ruby value. */
  function Field(c: Config, f: Flag): RubyValue {
    match f
    case MegacliCommand => OfString(c.collectorMegacliCommand)
    case NtpServer => OfString(c.collectorNtpServer)
    case NtpProtocolVersion => OfStrOrInt(c.collectorNtpProtocolVersion)
    case NtpServerIsLocal => OfBool(c.collectorNtpServerIsLocal)
    case NtpIpTtl => OfStrOrInt(c.collectorNtpIpTtl)
    case NtpMaxDistance => OfString(c.collectorNtpMaxDistance)
    case NtpLocalOffsetTolerance => OfString(c.collectorNtpLocalOffsetTolerance)
    case PathProcfs => OfString(c.pathProcfs)
    case PathSysfs => OfString(c.pathSysfs)
    case TextfileDirectory => OfString(c.collectorTextfileDirectory)
    case NetdevIgnoredDevices => OfString(c.collectorNetdevIgnoredDevices)
    case DiskstatsIgnoredDevices => OfString(c.collectorDiskstatsIgnoredDevices)
    case FilesystemIgnoredFsTypes => OfString(c.collectorFilesystemIgnoredFsTypes)
    case FilesystemIgnoredMountPoints => OfString(c.collectorFilesystemIgnoredMountPoints)
    case CustomOptions => OfString(c.customOptions)
  }

  /** The text a flag contributes (without its separating space) for the
      interpolated value `v`. */
  function SegmentText(f: Flag, v: string): string {
    match ShapeOf(f)
    case Valued => FlagName(f) + "=" + v
    case Quoted => FlagName(f) + "='" + v + "'"
    case Switch => FlagName(f)
    case Verbatim => v
  }

  /** The segment a flag contributes to the options: present exactly when its
      property is truthy. */
  function Segment(c: Config, f: Flag): (segs: seq<string>)
    ensures |segs| <= 1
    ensures |segs| == 1 <==> Truthy(Field(c, f))
    ensures |segs| == 1 && ShapeOf(f) != Switch ==> ValueOfSegment(f, segs[0]) == Some(Interpolate(Field(c, f)))
    ensures |segs| == 1 && ShapeOf(f) == Switch ==> segs[0] == FlagName(f)
  {
    if Truthy(Field(c, f)) && ShapeOf(f) != Switch then
      SegmentValueRoundTrip(f, Interpolate(Field(c, f)));
      [SegmentText(f, Interpolate(Field(c, f)))]
    else if Truthy(Field(c, f)) then [SegmentText(f, Interpolate(Field(c, f)))] else []
  }

  /** Reads a flag's value back out of its segment text. */
  function ValueOfSegment(f: Flag, text: string): Option<string> {
    var prefix := FlagName(f) + "=";
    match ShapeOf(f)
    case Valued =>
      if |prefix| <= |text| && text[..|prefix|] == prefix then Some(text[|prefix|..]) else None
    case Quoted =>
      if |prefix| + 2 <= |text| && text[..|prefix| + 1] == prefix + "'" && text[|text| - 1] == '\''
      then Some(text[|prefix| + 1..|text| - 1])
      else None
    case Switch => None
    case Verbatim => Some(text)
  }

  /** Every value-carrying flag inserts its value unchanged: the value can be
      read back exactly, whatever characters (quotes included) it holds. */
  lemma SegmentValueRoundTrip(f: Flag, v: string)
    requires ShapeOf(f) != Switch
    ensures ValueOfSegment(f, SegmentText(f, v)) == Some(v)
  {
    var prefix := FlagName(f) + "=";
    var text := SegmentText(f, v);
    if ShapeOf(f) == Valued {
      assert text == prefix + v;
      assert text[..|prefix|] == prefix;
      assert text[|prefix|..] == v;
    } else if ShapeOf(f) == Quoted {
      assert text == (prefix + "'") + v + "'";
      assert text[..|prefix| + 1] == prefix + "'";
      assert text[|prefix| + 1..|text| - 1] == v;
    }
  }

  /** Ruby truthiness as the guards see it: an empty string and the integer 0
      still emit their flag, while false and nil suppress it. */
  lemma GuardSemantics(c: Config)
    ensures c.collectorNtpServer == Some("") ==> Segment(c, NtpServer) == ["--collector.ntp.server="]
    ensures c.collectorNtpIpTtl == Some(Int(0)) ==> Segment(c, NtpIpTtl) == ["--collector.ntp.ip-ttl=0"]
    ensures c.customOptions == Some("") ==> Segment(c, CustomOptions) == [""]
    ensures Segment(c, NtpServerIsLocal) != [] <==> c.collectorNtpServerIsLocal == Some(true)
    ensures Segment(c, NtpServerIsLocal) != [] ==> Segment(c, NtpServerIsLocal) == ["--collector.ntp.server-is-local"]
    ensures forall f :: ShapeOf(f) != Switch ==> (Segment(c, f) != [] <==> Field(c, f) != Nil)
  {
    forall f | ShapeOf(f) != Switch
      ensures Segment(c, f) != [] <==> Field(c, f) != Nil
    {
      ValuedGuard(c, f);
    }
    if c.collectorNtpServer == Some("") {
      assert FlagName(NtpServer) + "=" + "" == "--collector.ntp.server=";
    }
    if c.collectorNtpIpTtl == Some(Int(0)) {
      assert Decimal.IntToString(0) == "0";
      assert FlagName(NtpIpTtl) + "=" + "0" == "--collector.ntp.ip-ttl=0";
    }
  }

  /** Only the switch can hold `false`, so every other flag is guarded by nil. */
  lemma ValuedGuard(c: Config, f: Flag)
    requires ShapeOf(f) != Switch
    ensures Segment(c, f) != [] <==> Field(c, f) != Nil
  {
    assert !Field(c, f).RBool?;
  }

  /** `c` and `d` agree on every property except the one behind flag `f`. */
  predicate DifferOnlyIn(c: Config, d: Config, f: Flag) {
    && c.webListenAddress == d.webListenAddress
    && c.webTelemetryPath == d.webTelemetryPath
    && c.logLevel == d.logLevel
    && c.logFormat == d.logFormat
    && c.collectorsEnabled == d.collectorsEnabled
    && c.collectorsDisabled == d.collectorsDisabled
    && forall g :: g != f ==> Field(c, g) == Field(d, g)
  }

  /** The four filters are wrapped in single quotes and nothing else: an
      embedded quote is copied as is and ends the quoting early. */
  lemma QuotedFilterExamples(c: Config)
    ensures c.collectorNetdevIgnoredDevices == Some("^veth") ==>
              Segment(c, NetdevIgnoredDevices) == ["--collector.netdev.ignored-devices='^veth'"]
    ensures c.collectorFilesystemIgnoredMountPoints == Some("a'b") ==>
              Segment(c, FilesystemIgnoredMountPoints) == ["--collector.filesystem.ignored-mount-points='a'b'"]
  {
    if c.collectorNetdevIgnoredDevices == Some("^veth") {
      assert FlagName(NetdevIgnoredDevices) + "='" + "^veth" + "'" == "--collector.netdev.ignored-devices='^veth'";
    }
    if c.collectorFilesystemIgnoredMountPoints == Some("a'b") {
      assert FlagName(FilesystemIgnoredMountPoints) + "='" + "a'b" + "'"
        == "--collector.filesystem.ignored-mount-points='a'b'";
    }
  }

  /** The custom options are passed through untouched, whatever they hold. */
  lemma CustomOptionsVerbatim(c: Config)
    ensures c.customOptions.Some? ==> Segment(c, CustomOptions) == [c.customOptions.value]
    ensures c.customOptions.None? ==> Segment(c, CustomOptions) == []
  {
  }

  /** The configuration with flag `f`'s property cleared (set back to nil). */
  function Unset(c: Config, f: Flag): (c': Config)
    ensures Field(c', f) == Nil
    ensures DifferOnlyIn(c, c', f)
  {
    match f
    case MegacliCommand => c.(collectorMegacliCommand := None)
    case NtpServer => c.(collectorNtpServer := None)
    case NtpProtocolVersion => c.(collectorNtpProtocolVersion := None)
    case NtpServerIsLocal => c.(collectorNtpServerIsLocal := None)
    case NtpIpTtl => c.(collectorNtpIpTtl := None)
    case NtpMaxDistance => c.(collectorNtpMaxDistance := None)
    case NtpLocalOffsetTolerance => c.(collectorNtpLocalOffsetTolerance := None)
    case PathProcfs => c.(pathProcfs := None)
    case PathSysfs => c.(pathSysfs := None)
    case TextfileDirectory => c.(collectorTextfileDirectory := None)
    case NetdevIgnoredDevices => c.(collectorNetdevIgnoredDevices := None)
    case DiskstatsIgnoredDevices => c.(collectorDiskstatsIgnoredDevices := None)
    case FilesystemIgnoredFsTypes => c.(collectorFilesystemIgnoredFsTypes := None)
    case FilesystemIgnoredMountPoints => c.(collectorFilesystemIgnoredMountPoints := None)
    case CustomOptions => c.(customOptions := None)
  }
}
