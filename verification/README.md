# node_exporter option builder

A Dafny model of the core of the `node_exporter` resource of the
prometheus_exporters Chef cookbook (`resources/node.rb`). The resource turns its
properties into the command line of the Prometheus node exporter daemon and
hands that line to a systemd unit or an upstart job. The model covers the
deterministic part of that work:

- the fixed collector vocabulary `COLLECTOR_LIST` and the two
  `'should be a collector'` callbacks on `collectors_enabled` and
  `collectors_disabled` (module `Collectors`);
- the property record, Ruby's truthiness and `#{}` interpolation as the guards
  and appends see them, and the table of the fifteen optional segments
  (module `NodeConfig`, with Integer rendering in module `Decimal`);
- the options string: four defaulted flags, the optional flags in their fixed
  order, the verbatim `custom_options`, then `--collector.<c>` and
  `--no-collector.<c>` per list element (module `Options`). `Render` is the
  declarative definition, a join of segments. `BuildOptions` builds the string
  the way the resource does, by appending one space-led segment at a time.
  The two are proved equal;
- the facts derived from the options: the start command, the choice between
  systemd unit and upstart job, and whether the textfile directory is created.
  The whole install action, from validation to those facts, is modelled in
  module `Install`.

Design decisions:

- Properties are `Option` values; `None` is Ruby's `nil`. The two NTP
  properties typed `[String, Integer]` are a `StrOrInt`. Integers render as
  Ruby's `Integer#to_s` does.
- A guard passes when its property is truthy in Ruby's sense. So an empty
  string and the integer `0` still emit their flag. `false` and `nil` suppress
  it, and only `collector_ntp_server_is_local` can be `false`.
- The two collector lists have no default. Chef runs a callback only on a value
  that is actually set, so a nil list passes validation. The install action
  then calls `.map` on it, which fails. `Render` therefore requires both lists,
  and `Install` returns `NilCollectorList` for a missing one. A missing list is
  never treated as empty.
- `COLLECTOR_LIST` holds 44 names, with `timex` last.
- Guards test for nil, not emptiness. The code's
  `if collector_textfile_directory` therefore emits the flag for `""`, while
  the directory resource's own guard also rejects `""`. Both are modelled as
  written.

## Model

| member | source | states |
|---|---|---|
| Collectors.CollectorListSize | resources/node.rb:10-55 | the collector vocabulary has exactly 44 names |
| Collectors.MembershipIsCaseSensitive | resources/node.rb:10-55 | membership is exact string equality: `cpu`, `timex` and `meminfo_numa` are collectors; `CPU`, `Timex` and ` cpu` are not |
| Collectors.CollectorNamesStartLowerCase | resources/node.rb:10-55 | every collector name is non-empty and starts with a lower-case letter |
| Collectors.IsCollector | resources/node.rb:65 | a collector name is non-empty and starts with a lower-case letter, so every empty, upper-case-led or space-led name is rejected |
| Collectors.Accepts | resources/node.rb:63-72 | `collectors.all? { COLLECTOR_LIST.include? }` accepts a list exactly when every element is a collector |
| Collectors.CheckCollectors | resources/node.rb:63-72 | the same check as a loop that stops at the first unknown name; it returns false exactly when some element is not a collector |
| Collectors.AcceptsConcat | resources/node.rb:63-72 | the empty list is accepted, and a concatenation is accepted exactly when both parts are |
| Collectors.ValidateProperty | resources/node.rb:63-72 | setting a list property succeeds, leaving the value unchanged, exactly when it is nil or all collectors; otherwise the error names the property and the 'should be a collector' callback |
| Install.ValidateConfig | resources/node.rb:63-72 | both list callbacks pass exactly when each list is nil or all collectors; the same rule holds for both; a failure names `collectors_enabled` exactly when that list is the one at fault, and names `collectors_disabled` otherwise |
| Decimal.NatToString | resources/node.rb:116-118 | an Integer's interpolation is a non-empty digit string without a leading zero (except for `0` itself) |
| Decimal.IntToString | resources/node.rb:116-118 | a negative Integer renders with a leading `-`, a non-negative one without |
| Decimal.IntRoundTrip | resources/node.rb:116-118 | the rendered decimal text of an Integer reads back as the same Integer |
| Decimal.IntToStringInjective | resources/node.rb:116-118 | distinct Integers render as distinct flag values |
| NodeConfig.Defaults | resources/node.rb:59-87 | the defaults configuration carries the given collector lists, has listen address `:9100`, telemetry path `/metrics`, log level `info` and log format `logger:stdout`, and leaves every optional property nil |
| NodeConfig.Position | resources/node.rb:114-128 | every optional flag has a place in the fixed append order |
| NodeConfig.OptionalFlagsDistinct | resources/node.rb:114-128 | each of the fifteen optional flags is appended exactly once |
| NodeConfig.GuardSemantics | resources/node.rb:114-123 | an optional flag is emitted exactly when its property is non-nil; `""` still emits `--collector.ntp.server=`; Integer `0` emits `--collector.ntp.ip-ttl=0`; `--collector.ntp.server-is-local` appears, without a value, exactly when the boolean is true |
| NodeConfig.Segment | resources/node.rb:114-128 | a flag contributes at most one segment, and one exactly when its property is truthy; that segment carries the property's interpolated value, readable back unchanged, or is the bare switch name |
| NodeConfig.SegmentValueRoundTrip | resources/node.rb:114-128 | every value-carrying flag contains its value verbatim: the value can be read back exactly from the segment, quotes included |
| NodeConfig.QuotedFilterExamples | resources/node.rb:124-127 | `^veth` renders as `--collector.netdev.ignored-devices='^veth'`; an embedded quote is not escaped |
| NodeConfig.CustomOptionsVerbatim | resources/node.rb:128 | the custom options contribute exactly their own text when set, and nothing when nil |
| NodeConfig.Unset | resources/node.rb:73-87 | clearing one optional property makes it nil and changes no other property |
| Options.CollectorFlags | resources/node.rb:130-131 | one flag per list element, in list order and without deduplication, each the prefix followed by the name |
| Options.Render | resources/node.rb:110-131 | the options string begins with `--web.listen-address=` followed by the listen address; `RenderLayout` states its full layout |
| Options.RenderLayout | resources/node.rb:110-131 | the options are the four defaulted flags, then the optional segments, then the enabled-collector flags, then the disabled-collector flags; every later segment is led by exactly one space, and the string never starts with a space |
| Options.DefaultsLayout | resources/node.rb:110-113 | with the four defaults and no optional property, the options are the four defaulted flags followed by the collector flags |
| Options.DefaultOptions | resources/node.rb:110-113 | with the defaults and both lists empty, the options are exactly `--web.listen-address=:9100 --web.telemetry-path=/metrics --log.level=info --log.format=logger:stdout` |
| Options.CustomOptionsLast | resources/node.rb:128-131 | the custom options are the last optional segment, so they come immediately before the collector flags |
| Options.CollectorFlagsLast | resources/node.rb:130-131 | the segments end with one `--collector.<c>` per enabled name, then one `--no-collector.<c>` per disabled name, each in list order; their number is the sum of the two list lengths |
| Options.CollectorExample | resources/node.rb:130-131 | enabling `cpu`, `meminfo` and disabling `wifi` ends the options with ` --collector.cpu --collector.meminfo --no-collector.wifi` |
| Options.SettingOneProperty | resources/node.rb:110-131 | setting one previously nil optional property inserts exactly its own segment, led by one space, at its fixed position; every other segment is unchanged; a false boolean leaves the options as they were |
| Options.AppendCollectorFlags | resources/node.rb:130-131 | `map { " --…#{c}" }.join` appends exactly the space-led collector flags of the list |
| Options.AppendOptionalFlags | resources/node.rb:114-128 | the guarded appends add exactly the space-led segments of the truthy optional properties, in order |
| Options.BuildOptions | resources/node.rb:110-131 | the options built by successive appends equal the declarative join of segments |
| Install.StartCommand | resources/node.rb:149-165 | the command line is the binary path `/usr/local/sbin/node_exporter`, one space, then the options unchanged |
| Install.StartCommandRoundTrip | resources/node.rb:149 | the start command is the binary path, one space, then the options, which can be recovered from it unchanged |
| Install.UnitsFor | resources/node.rb:137-172 | exactly one of the two service definitions passes its guard: the systemd unit when the init package is `systemd`, otherwise the upstart job; it runs the start command for the options |
| Install.SameCommandInBothUnits | resources/node.rb:149-169 | the systemd unit and the upstart job chosen for any init package other than `systemd` run the same command line |
| Install.TextfileDirectoryToCreate | resources/node.rb:174-181 | the textfile directory is created exactly when the property is set and not the empty string; the path created is the property's value |
| Install.TextfileDirectoryStricterThanFlag | resources/node.rb:123-181 | a directory that is created is always passed to the daemon by its flag; `""` emits `--collector.textfile.directory=` but creates nothing |
| Install.Install | resources/node.rb:89-182 | install succeeds exactly when both callbacks pass and both lists are set; a callback failure comes first, then a nil list; on success the plan holds the rendered options, the one unit for the init package running them, and the textfile directory to create |

## Left out

- Downloading the release archive, checksum verification, `tar` extraction and
  the `/usr/local/sbin` link (resources/node.rb:90-108): file-system and
  network side effects performed by Chef resources.
- The systemd unit's other settings and the upstart template itself
  (resources/node.rb:137-172). Only the command line and the guard choosing the
  unit kind are modelled.
- The textfile directory's `owner 'root'`, `group 'root'`, `mode '0755'` and
  `recursive true` (resources/node.rb:174-180): file-system attributes of the
  Chef `directory` resource. `TextfileDirectoryToCreate` yields only the path.
- The `enable`, `start`, `stop` and `disable` actions and the
  `notifies`/`subscribes` restart wiring (resources/node.rb:185-209): they
  delegate to the service manager.
- The node attributes for URL, checksum and version. They feed only the left-out
  download.
- Chef's property type coercion and its error message text. Properties arrive
  already typed, and a validation error carries the property name and the
  callback name.
- Install.UnitsFor: the init package is modelled as a string. A nil
  `node['init_package']` behaves like any string other than `systemd`.
- Install.ValidateConfig: the enabled list is checked before the disabled one.
  Chef checks each property when it is assigned, so with two bad lists the
  property reported first depends on the order of assignment in the recipe.
