/** The options string handed to the node_exporter binary: four defaulted
    flags, the optional flags in their fixed order, the verbatim custom
    options, then one flag per enabled and per disabled collector. */
module Options {
  import opened Wrappers
  import opened NodeConfig

  /** Every segment preceded by a single space, concatenated in order; this is
      also what `list.map { |c| " ..." }.join` produces. */
  function Spaced(segs: seq<string>): string {
    if |segs| == 0 then "" else " " + segs[0] + Spaced(segs[1..])
  }

  /** The segments separated by single spaces, with nothing before the first. */
  function Join(segs: seq<string>): string
    requires |segs| > 0
  {
    segs[0] + Spaced(segs[1..])
  }

  /** The four flags that are always present. */
  function Fixed(c: Config): seq<string> {
    [ "--web.listen-address=" + c.webListenAddress,
      "--web.telemetry-path=" + c.webTelemetryPath,
      "--log.level=" + c.logLevel,
      "--log.format=" + c.logFormat ]
  }

  /** The segment slots of the optional flags, one per flag in append order;
      each slot holds the flag's segment or nothing. */
  function OptionalSlots(c: Config): (slots: seq<seq<string>>)
    ensures |slots| == |OptionalFlags|
    ensures forall i :: 0 <= i < |OptionalFlags| ==> slots[i] == Segment(c, OptionalFlags[i])
  {
    seq(|OptionalFlags|, i requires 0 <= i < |OptionalFlags| => Segment(c, OptionalFlags[i]))
  }

  /** The slots' contents, in order. */
  function Flatten(slots: seq<seq<string>>): seq<string> {
    if |slots| == 0 then [] else slots[0] + Flatten(slots[1..])
  }

  /** One `<prefix><name>` flag per collector name, in list order, without
      deduplication. */
  function CollectorFlags(prefix: string, names: seq<string>): (segs: seq<string>)
    ensures |segs| == |names|
    ensures forall i :: 0 <= i < |names| ==> segs[i] == prefix + names[i]
  {
    if |names| == 0 then [] else [prefix + names[0]] + CollectorFlags(prefix, names[1..])
  }

  const EnablePrefix: string := "--collector."
  const DisablePrefix: string := "--no-collector."

  /** `.map` is called on both lists unconditionally, so both must be set. */
  predicate ListsPresent(c: Config) {
    c.collectorsEnabled.Some? && c.collectorsDisabled.Some?
  }

  /** The options as a list of segments, in command-line order. */
  function Segments(c: Config): seq<string>
    requires ListsPresent(c)
  {
    Fixed(c) + Flatten(OptionalSlots(c))
    + CollectorFlags(EnablePrefix, c.collectorsEnabled.value)
    + CollectorFlags(DisablePrefix, c.collectorsDisabled.value)
  }

  /** The options string. */
  function Render(c: Config): (options: string)
    requires ListsPresent(c)
    ensures var head := "--web.listen-address=" + c.webListenAddress;
      |head| <= |options| && options[..|head|] == head
  {
    Join(Segments(c))
  }

  lemma {:induction false} SpacedAppend(a: seq<string>, b: seq<string>)
    ensures Spaced(a + b) == Spaced(a) + Spaced(b)
    decreases |a|
  {
    if |a| > 0 {
      assert (a + b)[1..] == a[1..] + b;
      SpacedAppend(a[1..], b);
    } else {
      assert a + b == b;
    }
  }

  lemma SpacedOne(x: string)
    ensures Spaced([x]) == " " + x
  {
    assert [x][1..] == [];
  }

  lemma JoinAppend(a: seq<string>, b: seq<string>)
    requires |a| > 0
    ensures Join(a + b) == Join(a) + Spaced(b)
  {
    assert (a + b)[1..] == a[1..] + b;
    SpacedAppend(a[1..], b);
  }

  lemma Assoc(x: string, y: string, z: string)
    ensures x + (y + z) == x + y + z
  {
  }

  lemma {:induction false} FlattenAppend(a: seq<seq<string>>, b: seq<seq<string>>)
    ensures Flatten(a + b) == Flatten(a) + Flatten(b)
    decreases |a|
  {
    if |a| > 0 {
      assert (a + b)[1..] == a[1..] + b;
      FlattenAppend(a[1..], b);
    } else {
      assert a + b == b;
    }
  }

  lemma FlattenOne(x: seq<string>)
    ensures Flatten([x]) == x
  {
    assert [x][1..] == [];
  }

  /** One more slot's contents, each led by a space. */
  lemma SpacedFlattenStep(slots: seq<seq<string>>, k: nat)
    requires k < |slots|
    ensures Spaced(Flatten(slots[..k + 1])) == Spaced(Flatten(slots[..k])) + Spaced(slots[k])
  {
    assert slots[..k + 1] == slots[..k] + [slots[k]];
    FlattenAppend(slots[..k], [slots[k]]);
    FlattenOne(slots[k]);
    SpacedAppend(Flatten(slots[..k]), slots[k]);
  }

  /** Slots that are all empty contribute nothing. */
  lemma {:induction false} FlattenEmpty(slots: seq<seq<string>>)
    requires forall i :: 0 <= i < |slots| ==> slots[i] == []
    ensures Flatten(slots) == []
    decreases |slots|
  {
    if |slots| > 0 {
      FlattenEmpty(slots[1..]);
    }
  }

  /** The contents of slot `k` sit between those of the slots before and
      after it; emptying that slot removes exactly them. */
  lemma FlattenAround(slots: seq<seq<string>>, k: nat)
    requires k < |slots|
    ensures Flatten(slots) == Flatten(slots[..k]) + slots[k] + Flatten(slots[k + 1..])
    ensures Flatten(slots[k := []]) == Flatten(slots[..k]) + Flatten(slots[k + 1..])
  {
    assert slots == slots[..k] + [slots[k]] + slots[k + 1..];
    FlattenAppend(slots[..k] + [slots[k]], slots[k + 1..]);
    FlattenAppend(slots[..k], [slots[k]]);
    FlattenOne(slots[k]);
    var cleared := slots[k := []];
    assert cleared == slots[..k] + [[]] + slots[k + 1..];
    FlattenAppend(slots[..k] + [[]], slots[k + 1..]);
    FlattenAppend(slots[..k], [[]]);
    FlattenOne([]);
  }

  /** Clearing `f`'s property empties exactly `f`'s slot. */
  lemma SlotsCleared(c: Config, d: Config, f: Flag)
    requires DifferOnlyIn(c, d, f) && Field(d, f) == Nil
    ensures OptionalSlots(d) == OptionalSlots(c)[Position(f) := []]
  {
    var k := Position(f);
    forall i | 0 <= i < |OptionalFlags|
      ensures OptionalSlots(d)[i] == OptionalSlots(c)[k := []][i]
    {
      if i != k {
        OptionalFlagsDistinct();
        assert Position(OptionalFlags[i]) == i;
      }
    }
  }

  /** The four defaulted flags, each after the first led by one space. */
  lemma JoinFixed(c: Config)
    ensures Join(Fixed(c)) ==
      "--web.listen-address=" + c.webListenAddress
      + " --web.telemetry-path=" + c.webTelemetryPath
      + " --log.level=" + c.logLevel
      + " --log.format=" + c.logFormat
  {
    var f := Fixed(c);
    assert f[1..][1..][1..] == [f[3]];
    SpacedOne(f[3]);
    var t1 := " --web.telemetry-path=" + c.webTelemetryPath;
    var t2 := " --log.level=" + c.logLevel;
    var t3 := " --log.format=" + c.logFormat;
    assert " " + f[3] == t3;
    assert " " + f[2] == t2;
    assert " " + f[1] == t1;
    assert Spaced(f[1..][1..]) == t2 + t3;
    assert Spaced(f[1..]) == t1 + (t2 + t3);
    Assoc(f[0], t1, t2 + t3);
    Assoc(f[0] + t1, t2, t3);
    Assoc(f[0], " --web.telemetry-path=", c.webTelemetryPath);
    Assoc(f[0] + t1, " --log.level=", c.logLevel);
    Assoc(f[0] + t1 + t2, " --log.format=", c.logFormat);
  }

  /** The options are the defaulted flags, then the optional segments, then
      the enabled-collector flags, then the disabled-collector flags, each
      later segment introduced by exactly one space. The string therefore
      starts with the listen-address flag and never with a space. */
  lemma RenderLayout(c: Config)
    requires ListsPresent(c)
    ensures Render(c) ==
      "--web.listen-address=" + c.webListenAddress
      + " --web.telemetry-path=" + c.webTelemetryPath
      + " --log.level=" + c.logLevel
      + " --log.format=" + c.logFormat
      + Spaced(Flatten(OptionalSlots(c)))
      + Spaced(CollectorFlags(EnablePrefix, c.collectorsEnabled.value))
      + Spaced(CollectorFlags(DisablePrefix, c.collectorsDisabled.value))
    ensures Render(c)[0] == '-'
  {
    var fixed := Fixed(c);
    var p := Flatten(OptionalSlots(c));
    var e := CollectorFlags(EnablePrefix, c.collectorsEnabled.value);
    var d := CollectorFlags(DisablePrefix, c.collectorsDisabled.value);
    assert Segments(c) == fixed + (p + e + d);
    JoinAppend(fixed, p + e + d);
    SpacedAppend(p + e, d);
    SpacedAppend(p, e);
    JoinFixed(c);
    var head := Join(fixed);
    assert Render(c) == head + (Spaced(p) + Spaced(e) + Spaced(d));
    Assoc(head, Spaced(p) + Spaced(e), Spaced(d));
    Assoc(head, Spaced(p), Spaced(e));
    assert Render(c)[0] == head[0] == fixed[0][0];
  }

  /** The custom options are the last optional segment: they come right
      before the collector flags. */
  lemma CustomOptionsLast(c: Config)
    ensures var slots := OptionalSlots(c);
            Flatten(slots) == Flatten(slots[..Position(CustomOptions)]) + Segment(c, CustomOptions)
  {
    FlattenLast(OptionalSlots(c));
  }

  lemma FlattenLast(slots: seq<seq<string>>)
    requires |slots| > 0
    ensures Flatten(slots) == Flatten(slots[..|slots| - 1]) + slots[|slots| - 1]
  {
    var k := |slots| - 1;
    FlattenAround(slots, k);
    assert slots[k + 1..] == [];
  }

  /** The collector flags close the options: one `--collector.<c>` segment per
      enabled name, then one `--no-collector.<c>` segment per disabled name,
      each in list order; their number is the sum of the two list lengths. */
  lemma CollectorFlagsLast(c: Config)
    requires ListsPresent(c)
    ensures var en := c.collectorsEnabled.value;
            var dis := c.collectorsDisabled.value;
            var segs := Segments(c);
            var base := 4 + |Flatten(OptionalSlots(c))|;
            && |segs| == base + |en| + |dis|
            && (forall i :: 0 <= i < |en| ==> segs[base + i] == EnablePrefix + en[i])
            && (forall i :: 0 <= i < |dis| ==> segs[base + |en| + i] == DisablePrefix + dis[i])
  {
  }

  /** With the four defaults and no optional property set, the options are
      the four defaulted flags followed by the collector flags. */
  lemma DefaultsLayout(enabled: seq<string>, disabled: seq<string>)
    ensures Render(Defaults(enabled, disabled)) ==
      "--web.listen-address=:9100" + " --web.telemetry-path=/metrics" + " --log.level=info" + " --log.format=logger:stdout"
      + Spaced(CollectorFlags(EnablePrefix, enabled))
      + Spaced(CollectorFlags(DisablePrefix, disabled))
  {
    var c := Defaults(enabled, disabled);
    DefaultSlotsEmpty(enabled, disabled);
    RenderLayout(c);
    DefaultFlagTexts();
    SkipEmptyPart(
      "--web.listen-address=" + ":9100" + " --web.telemetry-path=" + "/metrics"
      + " --log.level=" + "info" + " --log.format=" + "logger:stdout",
      Spaced(CollectorFlags(EnablePrefix, enabled)),
      Spaced(CollectorFlags(DisablePrefix, disabled)));
  }

  /** With the defaults, no optional flag contributes a segment. */
  lemma DefaultSlotsEmpty(enabled: seq<string>, disabled: seq<string>)
    ensures Flatten(OptionalSlots(Defaults(enabled, disabled))) == []
  {
    var c := Defaults(enabled, disabled);
    assert forall f :: Field(c, f) == Nil;
    FlattenEmpty(OptionalSlots(c));
  }

  lemma SkipEmptyPart(head: string, e: string, d: string)
    ensures head + Spaced([]) + e + d == head + e + d
  {
    assert Spaced([]) == "";
  }

  lemma DefaultFlagTexts()
    ensures "--web.listen-address=" + ":9100" + " --web.telemetry-path=" + "/metrics"
            + " --log.level=" + "info" + " --log.format=" + "logger:stdout"
            == "--web.listen-address=:9100" + " --web.telemetry-path=/metrics" + " --log.level=info" + " --log.format=logger:stdout"
  {
    assert "--web.listen-address=" + ":9100" == "--web.listen-address=:9100";
    assert " --web.telemetry-path=" + "/metrics" == " --web.telemetry-path=/metrics";
    assert " --log.level=" + "info" == " --log.level=info";
    assert " --log.format=" + "logger:stdout" == " --log.format=logger:stdout";
  }

  /** With the defaults, no optional property and both lists empty, the
      options are exactly the four defaulted flags. */
  lemma DefaultOptions()
    ensures Render(Defaults([], [])) ==
      "--web.listen-address=:9100" + " --web.telemetry-path=/metrics" + " --log.level=info" + " --log.format=logger:stdout"
  {
    DefaultsLayout([], []);
    assert CollectorFlags(EnablePrefix, []) == [];
    assert CollectorFlags(DisablePrefix, []) == [];
  }

  lemma EnabledExample()
    ensures Spaced(CollectorFlags(EnablePrefix, ["cpu", "meminfo"])) == " --collector.cpu" + " --collector.meminfo"
  {
    var e := CollectorFlags(EnablePrefix, ["cpu", "meminfo"]);
    assert e[0] == "--collector.cpu";
    assert e[1] == "--collector.meminfo";
    assert e == ["--collector.cpu"] + ["--collector.meminfo"];
    SpacedAppend(["--collector.cpu"], ["--collector.meminfo"]);
    SpacedOne("--collector.cpu");
    SpacedOne("--collector.meminfo");
  }

  lemma DisabledExample()
    ensures Spaced(CollectorFlags(DisablePrefix, ["wifi"])) == " --no-collector.wifi"
  {
    var d := CollectorFlags(DisablePrefix, ["wifi"]);
    assert d[0] == "--no-collector.wifi";
    assert d == ["--no-collector.wifi"];
    SpacedOne("--no-collector.wifi");
  }

  /** A worked instance: enabling cpu and meminfo and disabling wifi ends the
      options with exactly those three flags, in that order. */
  lemma CollectorExample(c: Config)
    requires c.collectorsEnabled == Some(["cpu", "meminfo"]) && c.collectorsDisabled == Some(["wifi"])
    ensures var r := Render(c);
            var tail := " --collector.cpu" + " --collector.meminfo" + " --no-collector.wifi";
            |r| >= |tail| && r[|r| - |tail|..] == tail
  {
    RenderLayout(c);
    EnabledExample();
    DisabledExample();
    var e := Spaced(CollectorFlags(EnablePrefix, ["cpu", "meminfo"]));
    var d := Spaced(CollectorFlags(DisablePrefix, ["wifi"]));
    var head := Join(Fixed(c)) + Spaced(Flatten(OptionalSlots(c)));
    JoinFixed(c);
    assert Render(c) == head + e + d;
    Assoc(head, e, d);
    assert Render(c) == head + (e + d);
  }

  /** Inserting one segment into a list of segments inserts one space-led
      text into their join, at the end of the prefix's rendering. */
  lemma JoinInsert(a: seq<string>, t: string, b: seq<string>)
    requires |a| > 0
    ensures |a| <= |a + b| && |Join(a)| <= |Join(a + b)|
    ensures a + [t] + b == (a + b)[..|a|] + [t] + (a + b)[|a|..]
    ensures Join(a + [t] + b) == Join(a + b)[..|Join(a)|] + " " + t + Join(a + b)[|Join(a)|..]
  {
    JoinAppend(a, b);
    JoinAppend(a, [t] + b);
    SpacedAppend([t], b);
    SpacedOne(t);
    assert a + [t] + b == a + ([t] + b);
    assert (a + b)[..|a|] == a && (a + b)[|a|..] == b;
    var r := Join(a + b);
    assert r[..|Join(a)|] == Join(a);
    assert r[|Join(a)|..] == Spaced(b);
  }

  /** The segments that precede flag `f`'s slot. */
  function Before(c: Config, f: Flag): seq<string> {
    Fixed(c) + Flatten(OptionalSlots(c)[..Position(f)])
  }

  /** The segments that follow flag `f`'s slot. */
  function After(c: Config, f: Flag): seq<string>
    requires ListsPresent(c)
  {
    Flatten(OptionalSlots(c)[Position(f) + 1..])
    + CollectorFlags(EnablePrefix, c.collectorsEnabled.value)
    + CollectorFlags(DisablePrefix, c.collectorsDisabled.value)
  }

  /** Flag `f`'s slot sits between Before and After; with its property
      cleared, the slot is empty and nothing else moves. */
  lemma SegmentsAroundSlot(c: Config, d: Config, f: Flag)
    requires ListsPresent(c)
    requires DifferOnlyIn(c, d, f) && Field(d, f) == Nil
    ensures ListsPresent(d)
    ensures Segments(c) == Before(c, f) + Segment(c, f) + After(c, f)
    ensures Segments(d) == Before(c, f) + After(c, f)
  {
    var slots := OptionalSlots(c);
    var k := Position(f);
    SlotsCleared(c, d, f);
    assert Fixed(d) == Fixed(c);
    var e := CollectorFlags(EnablePrefix, c.collectorsEnabled.value);
    var x := CollectorFlags(DisablePrefix, c.collectorsDisabled.value);
    assert Segment(c, f) == slots[k];
    SplitAtSlot(Fixed(c), slots, k, e, x);
  }

  /** Slot `k` of a slotted segment list, between what precedes and follows it. */
  lemma SplitAtSlot(fixed: seq<string>, slots: seq<seq<string>>, k: nat, e: seq<string>, x: seq<string>)
    requires k < |slots|
    ensures fixed + Flatten(slots) + e + x == (fixed + Flatten(slots[..k])) + slots[k] + (Flatten(slots[k + 1..]) + e + x)
    ensures fixed + Flatten(slots[k := []]) + e + x == (fixed + Flatten(slots[..k])) + (Flatten(slots[k + 1..]) + e + x)
  {
    FlattenAround(slots, k);
    Regroup(fixed, Flatten(slots[..k]), slots[k], Flatten(slots[k + 1..]), e, x);
    Regroup(fixed, Flatten(slots[..k]), [], Flatten(slots[k + 1..]), e, x);
  }

  /** Regrouping a five-part concatenation around its middle part. */
  lemma Regroup<T>(a: seq<T>, b: seq<T>, m: seq<T>, c: seq<T>, e: seq<T>, x: seq<T>)
    ensures a + (b + m + c) + e + x == (a + b) + m + (c + e + x)
    ensures a + (b + [] + c) + e + x == (a + b) + (c + e + x)
  {
    assert b + [] + c == b + c;
  }


  /** Where flag `f`'s segment goes: the length of everything before it. */
  function InsertionPoint(c: Config, f: Flag): nat {
    |Join(Before(c, f))|
  }

  /** A truthy property's segment is inserted between Before and After. */
  lemma InsertedSegment(c: Config, d: Config, f: Flag)
    requires ListsPresent(c)
    requires DifferOnlyIn(c, d, f) && Field(d, f) == Nil
    requires Truthy(Field(c, f))
    ensures ListsPresent(d)
    ensures var j := |Before(c, f)|;
            var text := SegmentText(f, Interpolate(Field(c, f)));
            && j <= |Segments(d)|
            && Segments(c) == Segments(d)[..j] + [text] + Segments(d)[j..]
  {
    SegmentsAroundSlot(c, d, f);
    JoinInsert(Before(c, f), SegmentText(f, Interpolate(Field(c, f))), After(c, f));
  }

  /** The same insertion, seen in the options string. */
  lemma InsertedText(c: Config, d: Config, f: Flag)
    requires ListsPresent(c)
    requires DifferOnlyIn(c, d, f) && Field(d, f) == Nil
    requires Truthy(Field(c, f))
    ensures ListsPresent(d)
    ensures var p := InsertionPoint(c, f);
            var text := SegmentText(f, Interpolate(Field(c, f)));
            && p <= |Render(d)|
            && Render(c) == Render(d)[..p] + " " + text + Render(d)[p..]
  {
    SegmentsAroundSlot(c, d, f);
    JoinInsert(Before(c, f), SegmentText(f, Interpolate(Field(c, f))), After(c, f));
  }

  /** A falsy property leaves the options as they are. */
  lemma FalsyPropertyAddsNothing(c: Config, d: Config, f: Flag)
    requires ListsPresent(c)
    requires DifferOnlyIn(c, d, f) && Field(d, f) == Nil
    requires !Truthy(Field(c, f))
    ensures ListsPresent(d)
    ensures Render(c) == Render(d)
  {
    SegmentsAroundSlot(c, d, f);
    assert Segment(c, f) == [];
    DropEmpty(Before(c, f), After(c, f));
    assert Segments(c) == Segments(d);
  }

  lemma DropEmpty<T>(a: seq<T>, b: seq<T>)
    ensures a + [] + b == a + b
  {
  }

  /** Setting one optional property inserts exactly its own segment, at its
      fixed position, and leaves every other segment unchanged: `d` is `c`
      with that property nil (for instance `Unset(c, f)`). A falsy property
      (nil, or false for the boolean switch) contributes nothing. */
  lemma SettingOneProperty(c: Config, d: Config, f: Flag)
    requires ListsPresent(c)
    requires DifferOnlyIn(c, d, f) && Field(d, f) == Nil
    ensures ListsPresent(d)
    ensures !Truthy(Field(c, f)) ==> Render(c) == Render(d)
    ensures var j := |Before(c, f)|;
            var p := InsertionPoint(c, f);
            var text := SegmentText(f, Interpolate(Field(c, f)));
            Truthy(Field(c, f)) ==>
              && j <= |Segments(d)| && p <= |Render(d)|
              && Segments(c) == Segments(d)[..j] + [text] + Segments(d)[j..]
              && Render(c) == Render(d)[..p] + " " + text + Render(d)[p..]
  {
    if Truthy(Field(c, f)) {
      InsertedSegment(c, d, f);
      InsertedText(c, d, f);
    } else {
      FalsyPropertyAddsNothing(c, d, f);
    }
  }

  /** `names.map { |n| " <prefix><n>" }.join`, appended to `options`. */
  method AppendCollectorFlags(options: string, prefix: string, names: seq<string>) returns (r: string)
    ensures r == options + Spaced(CollectorFlags(prefix, names))
  {
    r := options;
    var i := 0;
    while i < |names|
      invariant 0 <= i <= |names|
      invariant r == options + Spaced(CollectorFlags(prefix, names[..i]))
    {
      var seg := prefix + names[i];
      CollectorStep(prefix, names, i);
      Assoc(r, " ", seg);
      Assoc(options, Spaced(CollectorFlags(prefix, names[..i])), " " + seg);
      r := r + " " + seg;
      i := i + 1;
    }
    assert names[..i] == names;
  }

  /** What the `i`-th collector append adds to the options. */
  lemma CollectorStep(prefix: string, names: seq<string>, i: nat)
    requires i < |names|
    ensures Spaced(CollectorFlags(prefix, names[..i + 1]))
            == Spaced(CollectorFlags(prefix, names[..i])) + (" " + (prefix + names[i]))
  {
    var seg := prefix + names[i];
    assert CollectorFlags(prefix, names[..i + 1]) == CollectorFlags(prefix, names[..i]) + [seg];
    SpacedAppend(CollectorFlags(prefix, names[..i]), [seg]);
    SpacedOne(seg);
  }

  /** What the `k`-th guarded append adds to the options. */
  lemma OptionalStep(c: Config, k: nat)
    requires k < |OptionalFlags|
    ensures var f := OptionalFlags[k];
            var v := Field(c, f);
            Spaced(Flatten(OptionalSlots(c)[..k + 1])) ==
              Spaced(Flatten(OptionalSlots(c)[..k])) + (if Truthy(v) then " " + SegmentText(f, Interpolate(v)) else "")
  {
    var slots := OptionalSlots(c);
    SpacedFlattenStep(slots, k);
    if Truthy(Field(c, OptionalFlags[k])) {
      SpacedOne(SegmentText(OptionalFlags[k], Interpolate(Field(c, OptionalFlags[k]))));
    }
  }

  /** The guarded appends of the optional flags, in their fixed order. */
  method AppendOptionalFlags(c: Config, options: string) returns (r: string)
    ensures r == options + Spaced(Flatten(OptionalSlots(c)))
  {
    r := options;
    var k := 0;
    while k < |OptionalFlags|
      invariant 0 <= k <= |OptionalFlags|
      invariant r == options + Spaced(Flatten(OptionalSlots(c)[..k]))
    {
      var f := OptionalFlags[k];
      var v := Field(c, f);
      var added := "";
      if Truthy(v) {
        added := " " + SegmentText(f, Interpolate(v));
      }
      OptionalStep(c, k);
      Assoc(options, Spaced(Flatten(OptionalSlots(c)[..k])), added);
      r := r + added;
      k := k + 1;
    }
    assert OptionalSlots(c)[..k] == OptionalSlots(c);
  }

  /** The options built the way the resource builds them: start from the
      listen-address flag and append a space-led segment for every other
      defaulted flag, every truthy optional property, and every enabled and
      disabled collector. */
  method BuildOptions(c: Config) returns (options: string)
    requires ListsPresent(c)
    ensures options == Render(c)
  {
    options := "--web.listen-address=" + c.webListenAddress;
    options := options + " --web.telemetry-path=" + c.webTelemetryPath;
    options := options + " --log.level=" + c.logLevel;
    options := options + " --log.format=" + c.logFormat;
    options := AppendOptionalFlags(c, options);
    options := AppendCollectorFlags(options, EnablePrefix, c.collectorsEnabled.value);
    options := AppendCollectorFlags(options, DisablePrefix, c.collectorsDisabled.value);
    RenderLayout(c);
  }
}
